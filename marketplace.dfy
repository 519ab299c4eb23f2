/**
 * The marketplace resources the phase reconcilers work on, their phases, and
 * the collaborators the reconcilers call: the registry deployer and the
 * datastore, both given by what their calls return.
 */
module Marketplace {
  import opened Wrappers
  import opened Errors
  import opened Cluster

  /** Phase names. */
  const Configuring := "Configuring"
  const Succeeded := "Succeeded"

  /** shared.Phase: the current phase of an object and a human-readable message. */
  datatype Phase = Phase(name: string, message: string)

  /**
   * A requested phase transition. phase.GetNext(name) supplies its own
   * message, which is not modelled (None); phase.GetNextWithMessage(name, m)
   * carries m.
   */
  datatype NextPhase = NextPhase(name: string, message: Option<string>)

  function GetNext(name: string): NextPhase
  {
    NextPhase(name, None)
  }

  function GetNextWithMessage(name: string, message: string): NextPhase
  {
    NextPhase(name, Some(message))
  }

  datatype OperatorSourceSpec = OperatorSourceSpec(displayName: string, publisher: string)

  /** The status of an OperatorSource; its zero value has an empty phase. */
  datatype OperatorSourceStatus = OperatorSourceStatus(currentPhase: Phase)

  const ZeroOperatorSourceStatus := OperatorSourceStatus(Phase("", ""))

  /** An OperatorSource; the reconcilers change its status in place. */
  class OperatorSource {
    const meta: ObjectMeta
    const spec: OperatorSourceSpec
    var status: OperatorSourceStatus

    constructor(meta: ObjectMeta, spec: OperatorSourceSpec, status: OperatorSourceStatus)
      ensures this.meta == meta && this.spec == spec && this.status == status
    {
      this.meta := meta;
      this.spec := spec;
      this.status := status;
    }

    /** GetCurrentPhaseName. */
    function CurrentPhaseName(): string
      reads this
    {
      status.currentPhase.name
    }
  }

  /** The desired state of a CatalogSourceConfig; packages is a comma-separated list. */
  datatype CatalogSourceConfigSpec = CatalogSourceConfigSpec(
    targetNamespace: string, packages: string, displayName: string, publisher: string)

  datatype CatalogSourceConfigStatus = CatalogSourceConfigStatus(
    currentPhase: Phase, packageRepositoryVersions: map<string, string>)

  /** The contents of a CatalogSourceConfig at one moment, as handed to a collaborator. */
  datatype CatalogSourceConfigValue = CatalogSourceConfigValue(
    meta: ObjectMeta, spec: CatalogSourceConfigSpec, status: CatalogSourceConfigStatus)

  /** A CatalogSourceConfig; the reconcilers change its status in place. */
  class CatalogSourceConfig {
    const meta: ObjectMeta
    const spec: CatalogSourceConfigSpec
    var status: CatalogSourceConfigStatus

    constructor(meta: ObjectMeta, spec: CatalogSourceConfigSpec, status: CatalogSourceConfigStatus)
      ensures this.meta == meta && this.spec == spec && this.status == status
    {
      this.meta := meta;
      this.spec := spec;
      this.status := status;
    }

    function Value(): CatalogSourceConfigValue
      reads this
    {
      CatalogSourceConfigValue(meta, spec, status)
    }
  }

  /**
   * The registry deployer (pkg/registry, not part of this model):
   *  - createRegistryResources(csc): the error of CreateRegistryResources, None on success;
   *  - ensurePackagesInStatus(csc): the status EnsurePackagesInStatus leaves on csc.
   */
  datatype Deployer = Deployer(
    createRegistryResources: CatalogSourceConfigValue -> Option<Error>,
    ensurePackagesInStatus: CatalogSourceConfigValue -> CatalogSourceConfigStatus)

  /** The datastore: the comma-separated package IDs recorded for an OperatorSource UID. */
  datatype Datastore = Datastore(getPackageIDsByOperatorSource: string -> string)

  /** The collaborator calls a reconciler makes, recorded in order. */
  datatype Call =
    | GetPackageIDs(uid: string)
    | CacheSet(cached: CatalogSourceConfigValue)
    | CreateRegistryResources(created: CatalogSourceConfigValue)
    | EnsurePackagesInStatus(target: CatalogSourceConfigValue)
}
