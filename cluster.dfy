/**
 * The cluster objects the controller reads, and the cluster client as the
 * outcomes of the reads it issues. The store itself is not modelled: every Get
 * or List is an input that either yields an object or fails with an error.
 */
module Cluster {
  import opened Wrappers
  import opened Errors

  /** types.NamespacedName / client.ObjectKey. */
  datatype NamespacedName = NamespacedName(namespace: string, name: string)

  /** The metadata the controller consults on an object. */
  datatype ObjectMeta = ObjectMeta(name: string, namespace: string, uid: string, labels: map<string, string>)

  /** corev1.EnvVar (name and literal value). */
  datatype EnvVar = EnvVar(name: string, value: string)

  datatype Container = Container(env: seq<EnvVar>)

  /** An apps/v1 Deployment, reduced to its pod template's containers. */
  datatype Deployment = Deployment(meta: ObjectMeta, containers: seq<Container>)

  /** The status of the cluster-wide config.openshift.io/v1 Proxy object. */
  datatype ProxyStatus = ProxyStatus(httpProxy: string, httpsProxy: string, noProxy: string)

  /** The kinds of child resource the controller creates for a CatalogSourceConfig. */
  datatype ChildKind =
    | CatalogSourceKind
    | DeploymentKind
    | ServiceKind
    | ServiceAccountKind
    | RoleKind
    | RoleBindingKind

  /**
   * A (non-nil) cluster client, given by what each call returns:
   *  - getProxy(key): Get of a config.openshift.io/v1 Proxy;
   *  - getDeployment(key): Get of an apps/v1 Deployment;
   *  - getChild(kind, key): the error of a Get whose object is not inspected (None on success);
   *  - listCatalogSourceConfigs / listOperatorSources: List of all objects of that kind.
   */
  datatype Client = Client(
    getProxy: NamespacedName -> Result<ProxyStatus, Error>,
    getDeployment: NamespacedName -> Result<Deployment, Error>,
    getChild: (ChildKind, NamespacedName) -> Option<Error>,
    listCatalogSourceConfigs: Result<seq<ObjectMeta>, Error>,
    listOperatorSources: Result<seq<ObjectMeta>, Error>)
}
