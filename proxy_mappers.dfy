/**
 * The proxy fan-out mappers (pkg/watches/proxy_csc_mapper.go and
 * pkg/watches/proxy_opsrc_mapper.go): on a change of the cluster Proxy, bring
 * the operator's proxy variables in step and ask for a reconcile of every
 * CatalogSourceConfig (respectively OperatorSource). The event itself is not
 * consulted.
 */
module ProxyMappers {
  import opened Wrappers
  import opened Errors
  import opened Cluster
  import opened ProxyEnvVars
  import Watches

  /** reconcile.Request. */
  datatype Request = Request(namespacedName: NamespacedName)

  /** One request per listed object, in list order, for the object's namespace and name. */
  function RequestsFor(items: seq<ObjectMeta>): (r: seq<Request>)
    ensures |r| == |items|
    ensures forall i :: 0 <= i < |items| ==> r[i] == Request(NamespacedName(items[i].namespace, items[i].name))
    decreases |items|
  {
    if |items| == 0 then []
    else [Request(NamespacedName(items[0].namespace, items[0].name))] + RequestsFor(items[1..])
  }

  /** The requests for the outcome of a List: none when it failed. */
  function ListedRequests(listing: Result<seq<ObjectMeta>, Error>): seq<Request>
  {
    if listing.Err? then [] else RequestsFor(listing.value)
  }

  /** The requests Map appends for a listing, one per item. */
  method AppendRequests(items: seq<ObjectMeta>) returns (requests: seq<Request>)
    ensures requests == RequestsFor(items)
  {
    requests := [];
    for i := 0 to |items|
      invariant |requests| == i
      invariant forall k :: 0 <= k < i ==> requests[k] == Request(NamespacedName(items[k].namespace, items[k].name))
    {
      requests := requests + [Request(NamespacedName(items[i].namespace, items[i].name))];
    }
  }

  /**
   * What a fan-out mapper leaves: the environment after SetOperatorEnvVars,
   * and no request when that fails, else the requests for the listing it consults.
   */
  function MapOutcome(vars: Env, client: Option<Client>, setenv: SetenvOutcome,
                      listing: Client -> Result<seq<ObjectMeta>, Error>): (Env, seq<Request>)
  {
    var outcome := SetOperatorEnvVarsOutcome(vars, client, setenv);
    if outcome.1.Some? || client.None? then (outcome.0, [])
    else (outcome.0, ListedRequests(listing(client.value)))
  }

  /** The List each fan-out mapper issues. */
  function Listing(m: Watches.Mapper): Client -> Result<seq<ObjectMeta>, Error>
  {
    if m == Watches.ProxyToOperatorSources then (c: Client) => c.listOperatorSources
    else (c: Client) => c.listCatalogSourceConfigs
  }

  /**
   * The proxy watch of a controller owned by `owner`, end to end: an unknown
   * owner fails to register; an event the predicate drops changes nothing and
   * enqueues nothing; otherwise the owner's mapper runs.
   */
  function ProxyWatchRequests(owner: string, e: Watches.Event, vars: Env, client: Option<Client>, setenv: SetenvOutcome): Result<(Env, seq<Request>), Error>
  {
    match Watches.ProxyMapper(owner)
    case Err(err) => Err(err)
    case Ok(m) =>
      if !Watches.ProxyPredicate(e) then Ok((vars, []))
      else Ok(MapOutcome(vars, client, setenv, Listing(m)))
  }

  /**
   * Requests are enqueued only for an event about the Proxy named "cluster",
   * for a known owner, after the environment was brought in step, one per
   * object of the owner's kind; any other event leaves everything as it was.
   */
  lemma ProxyWatchRouting(owner: string, e: Watches.Event, vars: Env, client: Option<Client>, setenv: SetenvOutcome)
    ensures ProxyWatchRequests(owner, e, vars, client, setenv).Err? <==>
      owner != Watches.CatalogSourceConfigKind && owner != Watches.OperatorSourceKind
    ensures !Watches.ProxyPredicate(e) && ProxyWatchRequests(owner, e, vars, client, setenv).Ok? ==>
      ProxyWatchRequests(owner, e, vars, client, setenv).value == (vars, [])
    ensures var r := ProxyWatchRequests(owner, e, vars, client, setenv);
      r.Ok? && |r.value.1| > 0 ==>
        Watches.ProxyPredicate(e) &&
        client.Some? &&
        SetOperatorEnvVarsOutcome(vars, client, setenv) == (r.value.0, None) &&
        (owner == Watches.CatalogSourceConfigKind ==>
          client.value.listCatalogSourceConfigs.Ok? &&
          r.value.1 == RequestsFor(client.value.listCatalogSourceConfigs.value)) &&
        (owner == Watches.OperatorSourceKind ==>
          client.value.listOperatorSources.Ok? &&
          r.value.1 == RequestsFor(client.value.listOperatorSources.value))
  {
  }

  /** proxyToCatalogSourceConfigs. */
  class ProxyToCatalogSourceConfigs {
    const client: Option<Client>

    constructor(client: Option<Client>)
      ensures this.client == client
    {
      this.client := client;
    }

    /**
     * Map: no request when the variables cannot be brought in step (and then
     * nothing is listed) or when the List fails; else one per CatalogSourceConfig.
     */
    method Map(env: Environment, setenv: SetenvOutcome) returns (requests: seq<Request>, ghost listed: bool)
      modifies env
      ensures env.vars == SetOperatorEnvVarsOutcome(old(env.vars), client, setenv).0
      ensures listed <==> SetOperatorEnvVarsOutcome(old(env.vars), client, setenv).1.None?
      ensures !listed ==> requests == []
      ensures listed ==> client.Some? && requests == ListedRequests(client.value.listCatalogSourceConfigs)
      ensures (env.vars, requests) == MapOutcome(old(env.vars), client, setenv, Listing(Watches.ProxyToCatalogSourceConfigs))
    {
      requests := [];
      listed := false;
      var err := env.SetOperatorEnvVars(client, setenv);
      if err.Some? {
        return requests, listed;
      }
      listed := true;
      var cscs := client.value.listCatalogSourceConfigs;
      if cscs.Err? {
        return requests, listed;
      }
      requests := AppendRequests(cscs.value);
    }
  }

  /** proxyToOperatorSources. */
  class ProxyToOperatorSources {
    const client: Option<Client>

    constructor(client: Option<Client>)
      ensures this.client == client
    {
      this.client := client;
    }

    /**
     * Map: no request when the variables cannot be brought in step (and then
     * nothing is listed) or when the List fails; else one per OperatorSource.
     */
    method Map(env: Environment, setenv: SetenvOutcome) returns (requests: seq<Request>, ghost listed: bool)
      modifies env
      ensures env.vars == SetOperatorEnvVarsOutcome(old(env.vars), client, setenv).0
      ensures listed <==> SetOperatorEnvVarsOutcome(old(env.vars), client, setenv).1.None?
      ensures !listed ==> requests == []
      ensures listed ==> client.Some? && requests == ListedRequests(client.value.listOperatorSources)
      ensures (env.vars, requests) == MapOutcome(old(env.vars), client, setenv, Listing(Watches.ProxyToOperatorSources))
    {
      requests := [];
      listed := false;
      var err := env.SetOperatorEnvVars(client, setenv);
      if err.Some? {
        return requests, listed;
      }
      listed := true;
      var opsrcs := client.value.listOperatorSources;
      if opsrcs.Err? {
        return requests, listed;
      }
      requests := AppendRequests(opsrcs.value);
    }
  }
}
