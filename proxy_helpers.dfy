/**
 * The drift check of a deployment's proxy variables against the operator's
 * own (pkg/proxy/helpers.go).
 */
module ProxyHelpers {
  import opened Wrappers
  import opened Errors
  import opened Cluster
  import opened ProxyEnvVars
  import opened ProxyAvailability

  /**
   * CheckDeploymentEnvVars: whether the deployment name/namespace must have its
   * environment updated. With the Proxy API unavailable nothing is fetched and
   * nothing needs an update; a failed fetch is returned; otherwise an update is
   * needed exactly when the first container's variables are not the operator's
   * three variables, in any order. `fetched` records whether the Get was issued.
   */
  method CheckDeploymentEnvVars(availability: Availability, env: Environment, client: Client, name: string, namespace: string)
    returns (needsUpdate: bool, err: Option<Error>, ghost fetched: bool)
    requires availability.isAPIAvailable && client.getDeployment(NamespacedName(namespace, name)).Ok? ==>
      |client.getDeployment(NamespacedName(namespace, name)).value.containers| > 0
    ensures fetched <==> availability.isAPIAvailable
    ensures !availability.isAPIAvailable ==> !needsUpdate && err.None?
    ensures availability.isAPIAvailable && client.getDeployment(NamespacedName(namespace, name)).Err? ==>
      !needsUpdate && err == Some(client.getDeployment(NamespacedName(namespace, name)).error)
    ensures availability.isAPIAvailable && client.getDeployment(NamespacedName(namespace, name)).Ok? ==>
      var deployment := client.getDeployment(NamespacedName(namespace, name)).value;
      err.None? &&
      (needsUpdate <==> multiset(deployment.containers[0].env) != multiset(OperatorEnvVars(env.vars)))
  {
    fetched := false;
    if !availability.IsAPIAvailable() {
      return false, None, fetched;
    }
    var key := NamespacedName(namespace, name);
    fetched := true;
    var got := client.getDeployment(key);
    if got.Err? {
      return false, Some(got.error), fetched;
    }
    var containerEnv := got.value.containers[0].env;
    var deploymentEnv := new EnvVar[|containerEnv|](i requires 0 <= i < |containerEnv| => containerEnv[i]);
    assert deploymentEnv[..] == containerEnv;
    var operatorEnv := env.GetOperatorEnvVars();
    SortEnvVars(deploymentEnv);
    SortEnvVars(operatorEnv);
    var equal := EqualEnvVars(deploymentEnv[..], operatorEnv[..]);
    SortedCompareDecidesDrift(env.vars, containerEnv, deploymentEnv[..], operatorEnv[..]);
    if equal {
      return false, None, fetched;
    }
    return true, None, fetched;
  }
}
