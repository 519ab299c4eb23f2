/**
 * Routing of watch events to reconcile requests (pkg/watches/helpers.go):
 * the child-resource existence check, the event predicates, the owner-key
 * recovery from labels, the owner dispatch, and the proxy drift check.
 * Registering the watches with the controller is not modelled.
 */
module Watches {
  import opened Wrappers
  import opened Errors
  import opened Cluster
  import opened ProxyEnvVars
  import opened ProxyAvailability

  /** Owner labels put on a CatalogSourceConfig's children (pkg/builders). */
  const CscOwnerNameLabel := "csc-owner-name"
  const CscOwnerNamespaceLabel := "csc-owner-namespace"

  /** The kinds that own watches. */
  const CatalogSourceConfigKind := "CatalogSourceConfig"
  const OperatorSourceKind := "OperatorSource"

  const UnknownOwnerMessage := "Unknown owner "

  // ---------------------------------------------------------------------------
  // Child resources
  // ---------------------------------------------------------------------------

  /** The child kinds CheckChildResources looks up, in its order. */
  function ChildChecks(secretIsPresent: bool): seq<ChildKind>
  {
    [CatalogSourceKind, DeploymentKind, ServiceKind] +
    (if secretIsPresent then [ServiceAccountKind, RoleKind, RoleBindingKind] else [])
  }

  /** Where a child lives: the CatalogSource in the target namespace, the rest in the owner's namespace. */
  function ChildKey(kind: ChildKind, name: string, namespace: string, targetNamespace: string): NamespacedName
  {
    if kind == CatalogSourceKind then NamespacedName(targetNamespace, name) else NamespacedName(namespace, name)
  }

  /** A child counts as missing when its Get fails, whatever the error. */
  predicate ChildMissing(client: Client, kind: ChildKind, name: string, namespace: string, targetNamespace: string)
  {
    client.getChild(kind, ChildKey(kind, name, namespace, targetNamespace)).Some?
  }

  /**
   * CheckChildResources: true iff one of the children is missing. The
   * look-ups (recorded in `queried`) go in the order of ChildChecks and stop
   * at the first missing child; without a secret the ServiceAccount, Role and
   * RoleBinding are never looked up.
   */
  method CheckChildResources(client: Client, name: string, namespace: string, targetNamespace: string, secretIsPresent: bool)
    returns (missing: bool, ghost queried: seq<ChildKind>)
    ensures missing <==>
      exists i :: 0 <= i < |ChildChecks(secretIsPresent)| &&
        ChildMissing(client, ChildChecks(secretIsPresent)[i], name, namespace, targetNamespace)
    ensures |queried| >= 1 && queried <= ChildChecks(secretIsPresent)
    ensures forall i :: 0 <= i < |queried| - 1 ==> !ChildMissing(client, queried[i], name, namespace, targetNamespace)
    ensures missing <==> ChildMissing(client, queried[|queried| - 1], name, namespace, targetNamespace)
    ensures !missing ==> queried == ChildChecks(secretIsPresent)
    ensures !secretIsPresent ==> forall i :: 0 <= i < |queried| ==> queried[i] in {CatalogSourceKind, DeploymentKind, ServiceKind}
  {
    ghost var checks := ChildChecks(secretIsPresent);
    assert checks[0] == CatalogSourceKind && checks[1] == DeploymentKind && checks[2] == ServiceKind;
    assert secretIsPresent ==> checks[3] == ServiceAccountKind && checks[4] == RoleKind && checks[5] == RoleBindingKind;
    var key := NamespacedName(targetNamespace, name);
    queried := [CatalogSourceKind];
    if client.getChild(CatalogSourceKind, key).Some? {
      return true, queried;
    }
    key := NamespacedName(namespace, name);
    queried := queried + [DeploymentKind];
    if client.getChild(DeploymentKind, key).Some? {
      return true, queried;
    }
    queried := queried + [ServiceKind];
    if client.getChild(ServiceKind, key).Some? {
      return true, queried;
    }
    if !secretIsPresent {
      return false, queried;
    }
    queried := queried + [ServiceAccountKind];
    if client.getChild(ServiceAccountKind, key).Some? {
      return true, queried;
    }
    queried := queried + [RoleKind];
    if client.getChild(RoleKind, key).Some? {
      return true, queried;
    }
    queried := queried + [RoleBindingKind];
    if client.getChild(RoleBindingKind, key).Some? {
      return true, queried;
    }
    return false, queried;
  }

  // ---------------------------------------------------------------------------
  // Events and predicates
  // ---------------------------------------------------------------------------

  /** The events a watch delivers, with the metadata of the objects involved. */
  datatype Event =
    | CreateEvent(meta: ObjectMeta)
    | UpdateEvent(metaOld: ObjectMeta, metaNew: ObjectMeta)
    | DeleteEvent(meta: ObjectMeta, deleteStateUnknown: bool)
    | GenericEvent(meta: ObjectMeta)

  /** getCscOwnerKey: the owning CatalogSourceConfig, when both owner labels are present. */
  function GetCscOwnerKey(labels: map<string, string>): (r: Option<NamespacedName>)
    ensures r.Some? <==> CscOwnerNamespaceLabel in labels && CscOwnerNameLabel in labels
    ensures r.Some? ==> r.value.namespace == labels[CscOwnerNamespaceLabel] && r.value.name == labels[CscOwnerNameLabel]
  {
    if CscOwnerNamespaceLabel !in labels then None
    else
      var ownerNamespace := labels[CscOwnerNamespaceLabel];
      if CscOwnerNameLabel !in labels then None
      else Some(NamespacedName(ownerNamespace, labels[CscOwnerNameLabel]))
  }

  /** cscDeleteFunc: a delete of a child of some CatalogSourceConfig that the watch did not miss. */
  function CscDeleteFunc(meta: ObjectMeta, deleteStateUnknown: bool): (r: bool)
    ensures deleteStateUnknown ==> !r
    ensures !deleteStateUnknown ==> (r <==> GetCscOwnerKey(meta.labels).Some?)
  {
    if deleteStateUnknown then false
    else GetCscOwnerKey(meta.labels).Some?
  }

  /**
   * The predicate of the child-resource watches: every create, update and
   * generic event is dropped, deletes go through cscDeleteFunc.
   */
  function ChildResourcePredicate(e: Event): (r: bool)
    ensures r ==> e.DeleteEvent? && !e.deleteStateUnknown
    ensures e.DeleteEvent? ==> (r <==> CscDeleteFunc(e.meta, e.deleteStateUnknown))
  {
    match e
    case CreateEvent(_) => false
    case UpdateEvent(_, _) => false
    case DeleteEvent(meta, unknown) => CscDeleteFunc(meta, unknown)
    case GenericEvent(_) => false
  }

  /** The predicate of the proxy watch: only events about the Proxy named "cluster". */
  function ProxyPredicate(e: Event): (r: bool)
    ensures e.UpdateEvent? ==> (r <==> e.metaOld.name == ClusterProxyName || e.metaNew.name == ClusterProxyName)
    ensures !e.UpdateEvent? ==> (r <==> e.meta.name == ClusterProxyName)
  {
    match e
    case CreateEvent(meta) => meta.name == ClusterProxyName
    case UpdateEvent(metaOld, metaNew) => metaOld.name == ClusterProxyName || metaNew.name == ClusterProxyName
    case DeleteEvent(meta, _) => meta.name == ClusterProxyName
    case GenericEvent(meta) => meta.name == ClusterProxyName
  }

  // ---------------------------------------------------------------------------
  // Owner dispatch
  // ---------------------------------------------------------------------------

  /** The request mappers a watch can be registered with. */
  datatype Mapper =
    | ChildResourceToCatalogSourceConfig
    | ProxyToCatalogSourceConfigs
    | ProxyToOperatorSources

  /** The owner switch of WatchChildResourcesDeletionEvents: only CatalogSourceConfig owns child watches. */
  function ChildResourceMapper(owner: string): (r: Result<Mapper, Error>)
    ensures r.Ok? <==> owner == CatalogSourceConfigKind
    ensures r.Ok? ==> r.value == ChildResourceToCatalogSourceConfig
    ensures r.Err? ==> r.error == Failure(UnknownOwnerMessage + owner)
  {
    if owner == CatalogSourceConfigKind then Ok(ChildResourceToCatalogSourceConfig)
    else Err(Failure(UnknownOwnerMessage + owner))
  }

  /** The owner switch of WatchProxyEvents: each known owner gets its own fan-out mapper. */
  function ProxyMapper(owner: string): (r: Result<Mapper, Error>)
    ensures r.Ok? <==> owner == CatalogSourceConfigKind || owner == OperatorSourceKind
    ensures owner == CatalogSourceConfigKind ==> r == Ok(ProxyToCatalogSourceConfigs)
    ensures owner == OperatorSourceKind ==> r == Ok(ProxyToOperatorSources)
    ensures r.Err? ==> r.error == Failure(UnknownOwnerMessage + owner)
  {
    if owner == CatalogSourceConfigKind then Ok(ProxyToCatalogSourceConfigs)
    else if owner == OperatorSourceKind then Ok(ProxyToOperatorSources)
    else Err(Failure(UnknownOwnerMessage + owner))
  }

  /** A delete event passes the child predicate exactly when it yields an owner request. */
  lemma ChildDeleteRoutesToOwner(e: Event)
    requires e.DeleteEvent?
    ensures ChildResourcePredicate(e) <==> !e.deleteStateUnknown && GetCscOwnerKey(e.meta.labels).Some?
  {
  }

  // ---------------------------------------------------------------------------
  // Proxy drift of a deployment
  // ---------------------------------------------------------------------------

  /**
   * CheckProxyResource: like CheckDeploymentEnvVars, but the decision on the
   * fetched deployment is proxy.NeedsUpdate, given here as the input `needsUpdate`.
   */
  method CheckProxyResource(availability: Availability, client: Client, name: string, namespace: string, needsUpdate: Deployment -> bool)
    returns (update: bool, err: Option<Error>, ghost fetched: bool)
    ensures fetched <==> availability.isAPIAvailable
    ensures !availability.isAPIAvailable ==> !update && err.None?
    ensures availability.isAPIAvailable && client.getDeployment(NamespacedName(namespace, name)).Err? ==>
      !update && err == Some(client.getDeployment(NamespacedName(namespace, name)).error)
    ensures availability.isAPIAvailable && client.getDeployment(NamespacedName(namespace, name)).Ok? ==>
      err.None? && update == needsUpdate(client.getDeployment(NamespacedName(namespace, name)).value)
  {
    fetched := false;
    if !availability.IsAPIAvailable() {
      return false, None, fetched;
    }
    var key := NamespacedName(namespace, name);
    fetched := true;
    var got := client.getDeployment(key);
    if got.Err? {
      return false, Some(got.error), fetched;
    }
    if needsUpdate(got.value) {
      return true, None, fetched;
    }
    return false, None, fetched;
  }
}
