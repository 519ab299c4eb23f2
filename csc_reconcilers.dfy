/**
 * The Configuring-phase reconciler of a CatalogSourceConfig
 * (pkg/catalogsourceconfig/configuring.go) and the cache it fills.
 */
module CatalogSourceConfigReconcilers {
  import opened Wrappers
  import opened Errors
  import opened Marketplace

  /**
   * The CatalogSourceConfig cache. Its implementation is not part of this
   * model; it is taken to remember the latest value set for each object UID.
   */
  class Cache {
    var entries: map<string, CatalogSourceConfigValue>

    constructor()
      ensures entries == map[]
    {
      entries := map[];
    }

    /** Set. */
    method Set(csc: CatalogSourceConfigValue)
      modifies this
      ensures entries == old(entries)[csc.meta.uid := csc]
    {
      entries := entries[csc.meta.uid := csc];
    }
  }

  /** configuringReconciler. */
  class ConfiguringReconciler {
    const deployer: Deployer
    const cache: Cache

    constructor(deployer: Deployer, cache: Cache)
      ensures this.deployer == deployer && this.cache == cache
    {
      this.deployer := deployer;
      this.cache := cache;
    }

    /**
     * Reconcile of a CatalogSourceConfig in the Configuring phase: cache it
     * first, so the cache holds it even when the rest fails; create its registry
     * resources; stay in Configuring with the error's text when that fails, else
     * record its packages in its status and move to Succeeded. `out` is the
     * given object itself, not a copy.
     */
    method Reconcile(csc: CatalogSourceConfig) returns (out: CatalogSourceConfig?, nextPhase: Option<NextPhase>, err: Option<Error>, ghost calls: seq<Call>)
      modifies csc, cache
      ensures old(csc.status.currentPhase.name) != Configuring ==>
        out == null && nextPhase.None? && err == Some(WrongReconcilerInvoked) && calls == [] &&
        csc.status == old(csc.status) && cache.entries == old(cache.entries)
      ensures old(csc.status.currentPhase.name) == Configuring ==>
        var before := old(csc.Value());
        out == csc &&
        cache.entries == old(cache.entries)[csc.meta.uid := before] &&
        err == deployer.createRegistryResources(before) &&
        (err.Some? ==>
          nextPhase == Some(GetNextWithMessage(Configuring, ErrorText(err.value))) &&
          csc.status == old(csc.status) &&
          calls == [CacheSet(before), CreateRegistryResources(before)]) &&
        (err.None? ==>
          nextPhase == Some(GetNext(Succeeded)) &&
          csc.status == deployer.ensurePackagesInStatus(before) &&
          calls == [CacheSet(before), CreateRegistryResources(before), EnsurePackagesInStatus(before)])
    {
      out, nextPhase, err, calls := null, None, None, [];
      if csc.status.currentPhase.name != Configuring {
        err := Some(WrongReconcilerInvoked);
        return;
      }
      out := csc;
      cache.Set(out.Value());
      calls := calls + [CacheSet(out.Value())];
      err := deployer.createRegistryResources(csc.Value());
      calls := calls + [CreateRegistryResources(csc.Value())];
      if err.Some? {
        nextPhase := Some(GetNextWithMessage(Configuring, ErrorText(err.value)));
        return;
      }
      calls := calls + [EnsurePackagesInStatus(out.Value())];
      out.status := deployer.ensurePackagesInStatus(out.Value());
      nextPhase := Some(GetNext(Succeeded));
    }
  }
}
