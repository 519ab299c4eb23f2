/**
 * The phase reconcilers of an OperatorSource (pkg/operatorsource/configuring.go
 * and pkg/operatorsource/succeeded.go).
 */
module OperatorSourceReconcilers {
  import opened Wrappers
  import opened Errors
  import opened Cluster
  import opened ProxyAvailability
  import opened Watches
  import opened Marketplace

  /** Owner labels put on a CatalogSourceConfig built for an OperatorSource (by the CatalogSourceConfig builder, whose values are assumed). */
  const OpsrcOwnerNameLabel := "opsrc-owner-name"
  const OpsrcOwnerNamespaceLabel := "opsrc-owner-namespace"

  /**
   * The CatalogSourceConfig the builder chain makes for an OperatorSource:
   * its name and namespace, its labels plus the owner labels, and a spec
   * targeting its namespace with the given packages, display name and publisher.
   */
  function BuildCatalogSourceConfig(meta: ObjectMeta, spec: OperatorSourceSpec, manifests: string): (r: CatalogSourceConfigValue)
    ensures r.meta.name == meta.name && r.meta.namespace == meta.namespace
    ensures r.spec == CatalogSourceConfigSpec(meta.namespace, manifests, spec.displayName, spec.publisher)
    ensures r.meta.labels.Keys == meta.labels.Keys + {OpsrcOwnerNameLabel, OpsrcOwnerNamespaceLabel}
    ensures r.meta.labels[OpsrcOwnerNameLabel] == meta.name
    ensures r.meta.labels[OpsrcOwnerNamespaceLabel] == meta.namespace
    ensures forall k :: k in meta.labels && k != OpsrcOwnerNameLabel && k != OpsrcOwnerNamespaceLabel ==>
      r.meta.labels[k] == meta.labels[k]
  {
    var labels := meta.labels[OpsrcOwnerNameLabel := meta.name][OpsrcOwnerNamespaceLabel := meta.namespace];
    CatalogSourceConfigValue(
      ObjectMeta(meta.name, meta.namespace, "", labels),
      CatalogSourceConfigSpec(meta.namespace, manifests, spec.displayName, spec.publisher),
      CatalogSourceConfigStatus(Phase("", ""), map[]))
  }

  /** configuringReconciler. */
  class ConfiguringReconciler {
    const datastore: Datastore
    const deployer: Deployer

    constructor(datastore: Datastore, deployer: Deployer)
      ensures this.datastore == datastore && this.deployer == deployer
    {
      this.datastore := datastore;
      this.deployer := deployer;
    }

    /**
     * Reconcile of an OperatorSource in the Configuring phase: look up its
     * packages, build its CatalogSourceConfig, create the registry resources for
     * it; stay in Configuring with the error's text when that fails, else record
     * the packages and move to Succeeded. `out` is the given object itself, not a copy.
     */
    method Reconcile(source: OperatorSource) returns (out: OperatorSource?, nextPhase: Option<NextPhase>, err: Option<Error>, ghost calls: seq<Call>)
      ensures source.CurrentPhaseName() != Configuring ==>
        out == null && nextPhase.None? && err == Some(WrongReconcilerInvoked)
      ensures source.CurrentPhaseName() == Configuring ==>
        var csc := BuildCatalogSourceConfig(source.meta, source.spec, datastore.getPackageIDsByOperatorSource(source.meta.uid));
        out == source &&
        err == deployer.createRegistryResources(csc) &&
        nextPhase == Some(if err.Some? then GetNextWithMessage(Configuring, ErrorText(err.value)) else GetNext(Succeeded))
      ensures source.CurrentPhaseName() != Configuring ==> calls == []
      ensures source.CurrentPhaseName() == Configuring ==>
        var csc := BuildCatalogSourceConfig(source.meta, source.spec, datastore.getPackageIDsByOperatorSource(source.meta.uid));
        calls == [GetPackageIDs(source.meta.uid), CreateRegistryResources(csc)] +
          (if err.None? then [EnsurePackagesInStatus(csc)] else [])
    {
      out, nextPhase, err, calls := null, None, None, [];
      if source.CurrentPhaseName() != Configuring {
        err := Some(WrongReconcilerInvoked);
        return;
      }
      out := source;
      var manifests := datastore.getPackageIDsByOperatorSource(source.meta.uid);
      calls := calls + [GetPackageIDs(source.meta.uid)];
      var cscCreate := BuildCatalogSourceConfig(source.meta, source.spec, manifests);
      err := deployer.createRegistryResources(cscCreate);
      calls := calls + [CreateRegistryResources(cscCreate)];
      if err.Some? {
        nextPhase := Some(GetNextWithMessage(Configuring, ErrorText(err.value)));
        return;
      }
      calls := calls + [EnsurePackagesInStatus(cscCreate)];
      nextPhase := Some(GetNext(Succeeded));
    }
  }

  /** succeededReconciler. */
  class SucceededReconciler {
    const client: Client

    constructor(client: Client)
      ensures this.client == client
    {
      this.client := client;
    }

    /**
     * Reconcile of an OperatorSource in the Succeeded phase: nothing happens
     * unless its deployment's proxy variables are out of step, in which case
     * the status is dropped and the object goes back to Configuring. The check
     * is CheckProxyResource, whose decision on the deployment is `needsUpdate`.
     */
    method Reconcile(source: OperatorSource, availability: Availability, needsUpdate: Deployment -> bool)
      returns (out: OperatorSource?, nextPhase: Option<NextPhase>, err: Option<Error>)
      modifies source
      ensures old(source.CurrentPhaseName()) != Succeeded ==>
        out == null && nextPhase.None? && err == Some(WrongReconcilerInvoked) && source.status == old(source.status)
      ensures old(source.CurrentPhaseName()) == Succeeded ==>
        var got := client.getDeployment(NamespacedName(source.meta.namespace, source.meta.name));
        out == source &&
        (availability.isAPIAvailable && got.Err? ==>
          err == Some(got.error) && nextPhase.None? && source.status == old(source.status)) &&
        (availability.isAPIAvailable && got.Ok? && needsUpdate(got.value) ==>
          err.None? && nextPhase == Some(GetNext(Configuring)) && source.status == ZeroOperatorSourceStatus) &&
        (!(availability.isAPIAvailable && (got.Err? || needsUpdate(got.value))) ==>
          err.None? && nextPhase.None? && source.status == old(source.status))
      ensures nextPhase.Some? ==> nextPhase.value == GetNext(Configuring)
    {
      out, nextPhase, err := null, None, None;
      if source.CurrentPhaseName() != Succeeded {
        err := Some(WrongReconcilerInvoked);
        return;
      }
      out := source;
      var needsProxyUpdate, checkErr, fetched := CheckProxyResource(availability, client, source.meta.name, source.meta.namespace, needsUpdate);
      err := checkErr;
      if err.Some? {
        return;
      }
      if needsProxyUpdate {
        out.status := ZeroOperatorSourceStatus;
        nextPhase := Some(GetNext(Configuring));
        return;
      }
      return out, None, None;
    }
  }
}
