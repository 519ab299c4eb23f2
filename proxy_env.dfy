/**
 * The operator's proxy environment variables (pkg/proxy/envvar.go): the three
 * process-wide values HTTP_PROXY, HTTPS_PROXY and NO_PROXY, kept in step with
 * the status of the cluster Proxy object, and the list helpers used to compare
 * them with a deployment's environment.
 *
 * The process environment is a map held by an Environment object. Whether
 * os.Setenv accepts a write is an input (`setenv`): None means the write took
 * effect, Some(e) that it failed with e and changed nothing.
 */
module ProxyEnvVars {
  import opened Wrappers
  import opened Errors
  import opened GoStrings
  import opened Cluster

  const HTTPProxy := "HTTP_PROXY"
  const HTTPSProxy := "HTTPS_PROXY"
  const NoProxy := "NO_PROXY"

  /** The name of the global config Proxy, declared in pkg/proxy/helpers.go. */
  const ClusterProxyName := "cluster"

  /** The key of the cluster Proxy: cluster-scoped, so without a namespace. */
  const ClusterProxyKey := NamespacedName("", ClusterProxyName)

  const NilClientMessage := "Client cannot be is nil"

  type Env = map<string, string>

  /** The outcome of os.Setenv(name, value). */
  type SetenvOutcome = (string, string) -> Option<Error>

  /** os.Getenv: the value of a variable, "" when it is unset. */
  function Getenv(vars: Env, name: string): string
  {
    if name in vars then vars[name] else ""
  }

  /** The three proxy values, in the order HTTP_PROXY, HTTPS_PROXY, NO_PROXY. */
  function ProxyValues(vars: Env): (string, string, string)
  {
    (Getenv(vars, HTTPProxy), Getenv(vars, HTTPSProxy), Getenv(vars, NoProxy))
  }

  /** GetOperatorEnvVars: the snapshot of the operator's proxy variables. */
  function OperatorEnvVars(vars: Env): (r: seq<EnvVar>)
    ensures |r| == 3
    ensures r[0].name == NoProxy && r[1].name == HTTPProxy && r[2].name == HTTPSProxy
    ensures forall i :: 0 <= i < |r| ==> r[i].value == Getenv(vars, r[i].name)
  {
    [EnvVar(NoProxy, Getenv(vars, NoProxy)),
     EnvVar(HTTPProxy, Getenv(vars, HTTPProxy)),
     EnvVar(HTTPSProxy, Getenv(vars, HTTPSProxy))]
  }

  // ---------------------------------------------------------------------------
  // Writing the environment
  // ---------------------------------------------------------------------------

  /** The writes setProxyEnvVars issues, in its order. */
  function ProxyWrites(httpProxy: string, httpsProxy: string, noProxy: string): seq<(string, string)>
  {
    [(HTTPProxy, httpProxy), (HTTPSProxy, httpsProxy), (NoProxy, noProxy)]
  }

  /**
   * The environment and the error after issuing writes one by one and
   * returning at the first one that fails.
   */
  function ApplyWrites(vars: Env, writes: seq<(string, string)>, setenv: SetenvOutcome): (Env, Option<Error>)
    decreases |writes|
  {
    if |writes| == 0 then (vars, None)
    else
      var err := setenv(writes[0].0, writes[0].1);
      if err.Some? then (vars, err)
      else ApplyWrites(vars[writes[0].0 := writes[0].1], writes[1..], setenv)
  }

  /** The environment after every one of writes took effect. */
  function WritesApplied(vars: Env, writes: seq<(string, string)>): Env
    decreases |writes|
  {
    if |writes| == 0 then vars else WritesApplied(vars[writes[0].0 := writes[0].1], writes[1..])
  }

  /** The names a sequence of writes assigns. */
  function WrittenNames(writes: seq<(string, string)>): set<string>
  {
    set i | 0 <= i < |writes| :: writes[i].0
  }

  /**
   * Writing stops at the first rejected write k: the writes before k took
   * effect, nothing after them did, and the error is the one of write k.
   */
  lemma {:induction false} ApplyWritesStopsAtFirstFailure(vars: Env, writes: seq<(string, string)>, setenv: SetenvOutcome, k: nat)
    requires k <= |writes|
    requires forall i :: 0 <= i < k ==> setenv(writes[i].0, writes[i].1).None?
    requires k < |writes| ==> setenv(writes[k].0, writes[k].1).Some?
    ensures ApplyWrites(vars, writes, setenv).0 == WritesApplied(vars, writes[..k])
    ensures ApplyWrites(vars, writes, setenv).1 == if k < |writes| then setenv(writes[k].0, writes[k].1) else None
    decreases k
  {
    if k > 0 {
      assert setenv(writes[0].0, writes[0].1).None?;
      var rest := writes[1..];
      forall i | 0 <= i < k - 1 ensures setenv(rest[i].0, rest[i].1).None? {
        assert rest[i] == writes[i + 1];
      }
      ApplyWritesStopsAtFirstFailure(vars[writes[0].0 := writes[0].1], rest, setenv, k - 1);
      assert writes[..k][1..] == rest[..k - 1];
    }
  }

  /** Writes change no variable outside the names they assign. */
  lemma {:induction false} WritesAppliedElsewhere(vars: Env, writes: seq<(string, string)>, name: string)
    requires name !in WrittenNames(writes)
    ensures name in WritesApplied(vars, writes) <==> name in vars
    ensures Getenv(WritesApplied(vars, writes), name) == Getenv(vars, name)
    decreases |writes|
  {
    if |writes| > 0 {
      assert writes[0].0 in WrittenNames(writes);
      assert WrittenNames(writes[1..]) <= WrittenNames(writes) by {
        forall n | n in WrittenNames(writes[1..]) ensures n in WrittenNames(writes) {
          var i :| 0 <= i < |writes[1..]| && writes[1..][i].0 == n;
          assert writes[i + 1].0 == n;
        }
      }
      WritesAppliedElsewhere(vars[writes[0].0 := writes[0].1], writes[1..], name);
    }
  }

  /** Whatever setenv does, issuing writes changes no variable outside the names they assign. */
  lemma {:induction false} ApplyWritesElsewhere(vars: Env, writes: seq<(string, string)>, setenv: SetenvOutcome, name: string)
    requires name !in WrittenNames(writes)
    ensures name in ApplyWrites(vars, writes, setenv).0 <==> name in vars
    ensures Getenv(ApplyWrites(vars, writes, setenv).0, name) == Getenv(vars, name)
    decreases |writes|
  {
    if |writes| > 0 && setenv(writes[0].0, writes[0].1).None? {
      assert writes[0].0 in WrittenNames(writes);
      assert WrittenNames(writes[1..]) <= WrittenNames(writes) by {
        forall n | n in WrittenNames(writes[1..]) ensures n in WrittenNames(writes) {
          var i :| 0 <= i < |writes[1..]| && writes[1..][i].0 == n;
          assert writes[i + 1].0 == n;
        }
      }
      ApplyWritesElsewhere(vars[writes[0].0 := writes[0].1], writes[1..], setenv, name);
    }
  }

  /** The names setProxyEnvVars writes. */
  lemma ProxyWritesNames(httpProxy: string, httpsProxy: string, noProxy: string)
    ensures WrittenNames(ProxyWrites(httpProxy, httpsProxy, noProxy)) == {HTTPProxy, HTTPSProxy, NoProxy}
  {
    var w := ProxyWrites(httpProxy, httpsProxy, noProxy);
    assert w[0].0 == HTTPProxy && w[1].0 == HTTPSProxy && w[2].0 == NoProxy;
  }

  /**
   * setProxyEnvVars writes HTTP_PROXY, then HTTPS_PROXY, then NO_PROXY, and
   * returns the error of the first write that fails, skipping the rest.
   */
  lemma SetProxyEnvVarsOrder(vars: Env, httpProxy: string, httpsProxy: string, noProxy: string, setenv: SetenvOutcome)
    ensures var r := ApplyWrites(vars, ProxyWrites(httpProxy, httpsProxy, noProxy), setenv);
      if setenv(HTTPProxy, httpProxy).Some? then
        r == (vars, setenv(HTTPProxy, httpProxy))
      else if setenv(HTTPSProxy, httpsProxy).Some? then
        r == (vars[HTTPProxy := httpProxy], setenv(HTTPSProxy, httpsProxy))
      else if setenv(NoProxy, noProxy).Some? then
        r == (vars[HTTPProxy := httpProxy][HTTPSProxy := httpsProxy], setenv(NoProxy, noProxy))
      else
        r == (vars[HTTPProxy := httpProxy][HTTPSProxy := httpsProxy][NoProxy := noProxy], None)
  {
    var w := ProxyWrites(httpProxy, httpsProxy, noProxy);
    if setenv(HTTPProxy, httpProxy).None? {
      var w1 := w[1..];
      assert w1 == [(HTTPSProxy, httpsProxy), (NoProxy, noProxy)];
      var v1 := vars[HTTPProxy := httpProxy];
      assert ApplyWrites(vars, w, setenv) == ApplyWrites(v1, w1, setenv);
      if setenv(HTTPSProxy, httpsProxy).None? {
        var w2 := w1[1..];
        assert w2 == [(NoProxy, noProxy)];
        var v2 := v1[HTTPSProxy := httpsProxy];
        assert ApplyWrites(v1, w1, setenv) == ApplyWrites(v2, w2, setenv);
        if setenv(NoProxy, noProxy).None? {
          assert w2[1..] == [];
          assert ApplyWrites(v2, w2, setenv) == ApplyWrites(v2[NoProxy := noProxy], [], setenv);
        }
      }
    }
  }

  /** When every write is accepted, the three values become the given ones. */
  lemma SetProxyEnvVarsAccepted(vars: Env, httpProxy: string, httpsProxy: string, noProxy: string, setenv: SetenvOutcome)
    requires setenv(HTTPProxy, httpProxy).None?
    requires setenv(HTTPSProxy, httpsProxy).None?
    requires setenv(NoProxy, noProxy).None?
    ensures ApplyWrites(vars, ProxyWrites(httpProxy, httpsProxy, noProxy), setenv).1 == None
    ensures ProxyValues(ApplyWrites(vars, ProxyWrites(httpProxy, httpsProxy, noProxy), setenv).0)
         == (httpProxy, httpsProxy, noProxy)
  {
    SetProxyEnvVarsOrder(vars, httpProxy, httpsProxy, noProxy, setenv);
  }

  // ---------------------------------------------------------------------------
  // SetOperatorEnvVars
  // ---------------------------------------------------------------------------

  /**
   * The environment and the error SetOperatorEnvVars leaves: nil client and
   * failed fetch return an error at once; matching values write nothing;
   * otherwise the new values are written, and when that fails the old values
   * are written back (that error ignored) and the first error is returned.
   */
  function SetOperatorEnvVarsOutcome(vars: Env, client: Option<Client>, setenv: SetenvOutcome): (Env, Option<Error>)
  {
    if client.None? then (vars, Some(Failure(NilClientMessage)))
    else
      match client.value.getProxy(ClusterProxyKey)
      case Err(e) => (vars, Some(e))
      case Ok(p) =>
        var (oldHTTP, oldHTTPS, oldNo) := ProxyValues(vars);
        if oldHTTP == p.httpProxy && oldHTTPS == p.httpsProxy && oldNo == p.noProxy then
          (vars, None)
        else
          var forward := ApplyWrites(vars, ProxyWrites(p.httpProxy, p.httpsProxy, p.noProxy), setenv);
          if forward.1.None? then forward
          else (ApplyWrites(forward.0, ProxyWrites(oldHTTP, oldHTTPS, oldNo), setenv).0, forward.1)
  }

  /** A nil client is an error and leaves the environment as it was. */
  lemma SetOperatorEnvVarsNilClient(vars: Env, setenv: SetenvOutcome)
    ensures SetOperatorEnvVarsOutcome(vars, None, setenv) == (vars, Some(Failure(NilClientMessage)))
  {
  }

  /** A failed fetch of the cluster Proxy is returned and leaves the environment as it was. */
  lemma SetOperatorEnvVarsFetchFails(vars: Env, client: Client, setenv: SetenvOutcome)
    requires client.getProxy(ClusterProxyKey).Err?
    ensures SetOperatorEnvVarsOutcome(vars, Some(client), setenv)
         == (vars, Some(client.getProxy(ClusterProxyKey).error))
  {
  }

  /** Values already in step are not written: the outcome is the same whatever os.Setenv would do. */
  lemma SetOperatorEnvVarsInStep(vars: Env, client: Client, setenv: SetenvOutcome)
    requires client.getProxy(ClusterProxyKey).Ok?
    requires var p := client.getProxy(ClusterProxyKey).value;
      ProxyValues(vars) == (p.httpProxy, p.httpsProxy, p.noProxy)
    ensures SetOperatorEnvVarsOutcome(vars, Some(client), setenv) == (vars, None)
  {
  }

  /** When the writes are accepted, the three values become the Proxy's status values. */
  lemma SetOperatorEnvVarsSucceeds(vars: Env, client: Client, setenv: SetenvOutcome)
    requires client.getProxy(ClusterProxyKey).Ok?
    requires var p := client.getProxy(ClusterProxyKey).value;
      setenv(HTTPProxy, p.httpProxy).None? && setenv(HTTPSProxy, p.httpsProxy).None? &&
      setenv(NoProxy, p.noProxy).None?
    ensures var p := client.getProxy(ClusterProxyKey).value;
      var r := SetOperatorEnvVarsOutcome(vars, Some(client), setenv);
      r.1 == None && ProxyValues(r.0) == (p.httpProxy, p.httpsProxy, p.noProxy)
    ensures var r := SetOperatorEnvVarsOutcome(vars, Some(client), setenv);
      OperatorEnvVars(r.0) == [EnvVar(NoProxy, client.getProxy(ClusterProxyKey).value.noProxy),
                               EnvVar(HTTPProxy, client.getProxy(ClusterProxyKey).value.httpProxy),
                               EnvVar(HTTPSProxy, client.getProxy(ClusterProxyKey).value.httpsProxy)]
  {
    var p := client.getProxy(ClusterProxyKey).value;
    SetProxyEnvVarsAccepted(vars, p.httpProxy, p.httpsProxy, p.noProxy, setenv);
  }

  /**
   * A failed write is returned; when the rollback writes are accepted, the
   * three values read as they did before (a variable that was unset now holds "").
   */
  lemma SetOperatorEnvVarsRollsBack(vars: Env, client: Client, setenv: SetenvOutcome)
    requires client.getProxy(ClusterProxyKey).Ok?
    requires var p := client.getProxy(ClusterProxyKey).value;
      setenv(HTTPProxy, p.httpProxy).Some? || setenv(HTTPSProxy, p.httpsProxy).Some? ||
      setenv(NoProxy, p.noProxy).Some?
    requires var (h, hs, n) := ProxyValues(vars);
      setenv(HTTPProxy, h).None? && setenv(HTTPSProxy, hs).None? && setenv(NoProxy, n).None?
    ensures var p := client.getProxy(ClusterProxyKey).value;
      var r := SetOperatorEnvVarsOutcome(vars, Some(client), setenv);
      r.1 == (if setenv(HTTPProxy, p.httpProxy).Some? then setenv(HTTPProxy, p.httpProxy)
              else if setenv(HTTPSProxy, p.httpsProxy).Some? then setenv(HTTPSProxy, p.httpsProxy)
              else setenv(NoProxy, p.noProxy))
    ensures ProxyValues(SetOperatorEnvVarsOutcome(vars, Some(client), setenv).0) == ProxyValues(vars)
  {
    var p := client.getProxy(ClusterProxyKey).value;
    var (h, hs, n) := ProxyValues(vars);
    SetProxyEnvVarsOrder(vars, p.httpProxy, p.httpsProxy, p.noProxy, setenv);
    var forward := ApplyWrites(vars, ProxyWrites(p.httpProxy, p.httpsProxy, p.noProxy), setenv);
    SetProxyEnvVarsAccepted(forward.0, h, hs, n, setenv);
  }

  /** No variable other than the three proxy variables is ever changed. */
  lemma SetOperatorEnvVarsElsewhere(vars: Env, client: Option<Client>, setenv: SetenvOutcome, name: string)
    requires name != HTTPProxy && name != HTTPSProxy && name != NoProxy
    ensures name in SetOperatorEnvVarsOutcome(vars, client, setenv).0 <==> name in vars
    ensures Getenv(SetOperatorEnvVarsOutcome(vars, client, setenv).0, name) == Getenv(vars, name)
  {
    if client.Some? && client.value.getProxy(ClusterProxyKey).Ok? {
      var p := client.value.getProxy(ClusterProxyKey).value;
      var (h, hs, n) := ProxyValues(vars);
      ProxyWritesNames(p.httpProxy, p.httpsProxy, p.noProxy);
      ProxyWritesNames(h, hs, n);
      ApplyWritesElsewhere(vars, ProxyWrites(p.httpProxy, p.httpsProxy, p.noProxy), setenv, name);
      var forward := ApplyWrites(vars, ProxyWrites(p.httpProxy, p.httpsProxy, p.noProxy), setenv);
      ApplyWritesElsewhere(forward.0, ProxyWrites(h, hs, n), setenv, name);
    }
  }

  /** The process environment, guarded in the source by a mutex that is not modelled. */
  class Environment {
    var vars: Env

    constructor(initial: Env)
      ensures vars == initial
    {
      vars := initial;
    }

    /** os.Setenv. */
    method Setenv(name: string, value: string, setenv: SetenvOutcome) returns (err: Option<Error>)
      modifies this
      ensures err == setenv(name, value)
      ensures vars == if err.None? then old(vars)[name := value] else old(vars)
    {
      err := setenv(name, value);
      if err.None? {
        vars := vars[name := value];
      }
    }

    /** setProxyEnvVars. */
    method SetProxyEnvVars(httpProxy: string, httpsProxy: string, noProxy: string, setenv: SetenvOutcome)
      returns (err: Option<Error>)
      modifies this
      ensures (vars, err) == ApplyWrites(old(vars), ProxyWrites(httpProxy, httpsProxy, noProxy), setenv)
    {
      SetProxyEnvVarsOrder(vars, httpProxy, httpsProxy, noProxy, setenv);
      err := Setenv(HTTPProxy, httpProxy, setenv);
      if err.Some? {
        return;
      }
      err := Setenv(HTTPSProxy, httpsProxy, setenv);
      if err.Some? {
        return;
      }
      err := Setenv(NoProxy, noProxy, setenv);
    }

    /** SetOperatorEnvVars: bring the three values in step with the cluster Proxy. */
    method SetOperatorEnvVars(client: Option<Client>, setenv: SetenvOutcome) returns (err: Option<Error>)
      modifies this
      ensures (vars, err) == SetOperatorEnvVarsOutcome(old(vars), client, setenv)
    {
      if client.None? {
        return Some(Failure(NilClientMessage));
      }
      var fetched := client.value.getProxy(ClusterProxyKey);
      if fetched.Err? {
        return Some(fetched.error);
      }
      var oldHTTPProxy := Getenv(vars, HTTPProxy);
      var oldHTTPSProxy := Getenv(vars, HTTPSProxy);
      var oldNoProxy := Getenv(vars, NoProxy);
      var p := fetched.value;
      if oldHTTPProxy != p.httpProxy || oldHTTPSProxy != p.httpsProxy || oldNoProxy != p.noProxy {
        err := SetProxyEnvVars(p.httpProxy, p.httpsProxy, p.noProxy, setenv);
        if err.Some? {
          var rollbackErr := SetProxyEnvVars(oldHTTPProxy, oldHTTPSProxy, oldNoProxy, setenv);
          return err;
        }
      }
      return None;
    }

    /** GetOperatorEnvVars, as a fresh list the caller may sort. */
    method GetOperatorEnvVars() returns (r: array<EnvVar>)
      ensures fresh(r)
      ensures r[..] == OperatorEnvVars(vars)
    {
      var snapshot := OperatorEnvVars(vars);
      r := new EnvVar[3](i requires 0 <= i < 3 => snapshot[i]);
    }
  }

  // ---------------------------------------------------------------------------
  // Comparing and sorting lists of variables
  // ---------------------------------------------------------------------------

  /** EqualEnvVars: same length and the same entry at every index. */
  method EqualEnvVars(a: seq<EnvVar>, b: seq<EnvVar>) returns (equal: bool)
    ensures equal <==> |a| == |b| && forall i :: 0 <= i < |a| ==> a[i] == b[i]
    ensures equal <==> a == b
  {
    if |a| != |b| {
      return false;
    }
    for i := 0 to |a|
      invariant forall k :: 0 <= k < i ==> a[k] == b[k]
    {
      if a[i] != b[i] {
        return false;
      }
    }
    return true;
  }

  /** Names never decrease along the list. */
  predicate SortedByName(s: seq<EnvVar>)
  {
    forall i, j :: 0 <= i < j < |s| ==> !Less(s[j].name, s[i].name)
  }

  /** SortEnvVars: sorts in place by name; the order among equal names is not promised. */
  method SortEnvVars(envVars: array<EnvVar>)
    modifies envVars
    ensures SortedByName(envVars[..])
    ensures multiset(envVars[..]) == multiset(old(envVars[..]))
  {
    var i := 0;
    while i < envVars.Length
      invariant 0 <= i <= envVars.Length
      invariant forall p, q :: 0 <= p < q < i ==> !Less(envVars[q].name, envVars[p].name)
      invariant multiset(envVars[..]) == multiset(old(envVars[..]))
    {
      var j := i;
      while j > 0 && Less(envVars[j].name, envVars[j - 1].name)
        invariant 0 <= j <= i
        invariant forall p, q :: 0 <= p < q <= i && q != j ==> !Less(envVars[q].name, envVars[p].name)
        invariant multiset(envVars[..]) == multiset(old(envVars[..]))
      {
        LessAsymmetric(envVars[j].name, envVars[j - 1].name);
        envVars[j - 1], envVars[j] := envVars[j], envVars[j - 1];
        j := j - 1;
      }
      forall p | 0 <= p < j
        ensures !Less(envVars[j].name, envVars[p].name)
      {
        if p < j - 1 {
          NotLessTransitive(envVars[p].name, envVars[j - 1].name, envVars[j].name);
        }
      }
      i := i + 1;
    }
  }

  /** No two entries share a name. */
  predicate DistinctNames(s: seq<EnvVar>)
  {
    forall i, j :: 0 <= i < j < |s| ==> s[i].name != s[j].name
  }

  /** Sorted lists with the same entries start with the same entry when the first has distinct names. */
  lemma SortedPermutationsSameHead(s: seq<EnvVar>, t: seq<EnvVar>)
    requires |s| > 0
    requires SortedByName(s) && SortedByName(t)
    requires DistinctNames(s)
    requires multiset(s) == multiset(t)
    ensures |t| > 0 && t[0] == s[0]
  {
    assert s[0] in multiset(t);
    var k :| 0 <= k < |t| && t[k] == s[0];
    assert t[0] in multiset(s);
    var m :| 0 <= m < |s| && s[m] == t[0];
    if m != 0 && k != 0 {
      assert !Less(s[0].name, s[m].name);
      assert !Less(s[m].name, s[0].name);
      LessTotal(s[0].name, s[m].name);
    }
  }

  /** Dropping the first entry keeps a list sorted. */
  lemma TailSorted(s: seq<EnvVar>)
    requires |s| > 0 && SortedByName(s)
    ensures SortedByName(s[1..])
  {
    forall i, j | 0 <= i < j < |s[1..]| ensures !Less(s[1..][j].name, s[1..][i].name) {
      assert s[1..][i] == s[i + 1] && s[1..][j] == s[j + 1];
    }
  }

  /** Dropping the first entry keeps the names distinct. */
  lemma TailDistinct(s: seq<EnvVar>)
    requires |s| > 0 && DistinctNames(s)
    ensures DistinctNames(s[1..])
  {
    forall i, j | 0 <= i < j < |s[1..]| ensures s[1..][i].name != s[1..][j].name {
      assert s[1..][i] == s[i + 1] && s[1..][j] == s[j + 1];
    }
  }

  /** Lists with the same entries and the same first entry have the same remaining entries. */
  lemma SameTails(s: seq<EnvVar>, t: seq<EnvVar>)
    requires |s| > 0 && |t| > 0 && s[0] == t[0]
    requires multiset(s) == multiset(t)
    ensures multiset(s[1..]) == multiset(t[1..])
  {
    assert s == [s[0]] + s[1..] && t == [t[0]] + t[1..];
    assert multiset(s) == multiset{s[0]} + multiset(s[1..]);
    assert multiset(t) == multiset{t[0]} + multiset(t[1..]);
    assert multiset(s[1..]) == multiset(s) - multiset{s[0]};
    assert multiset(t[1..]) == multiset(t) - multiset{t[0]};
  }

  /**
   * Two lists sorted by name with the same entries are equal when one of them
   * has distinct names: sorting makes the comparison independent of the
   * original order.
   */
  lemma {:induction false} SortedPermutationsEqual(s: seq<EnvVar>, t: seq<EnvVar>)
    requires SortedByName(s) && SortedByName(t)
    requires DistinctNames(s)
    requires multiset(s) == multiset(t)
    ensures s == t
    decreases |s|
  {
    if |s| == 0 {
      assert |t| == |multiset(t)| == 0;
    } else {
      SortedPermutationsSameHead(s, t);
      TailSorted(s);
      TailSorted(t);
      TailDistinct(s);
      SameTails(s, t);
      SortedPermutationsEqual(s[1..], t[1..]);
      assert s == [s[0]] + s[1..] && t == [t[0]] + t[1..];
    }
  }

  /**
   * Comparing the sorted lists decides whether a list holds exactly the
   * operator's three variables, whatever order either list had.
   */
  lemma SortedCompareDecidesDrift(vars: Env, deploymentEnv: seq<EnvVar>, sortedDeployment: seq<EnvVar>, sortedOperator: seq<EnvVar>)
    requires SortedByName(sortedDeployment) && SortedByName(sortedOperator)
    requires multiset(sortedDeployment) == multiset(deploymentEnv)
    requires multiset(sortedOperator) == multiset(OperatorEnvVars(vars))
    ensures sortedDeployment == sortedOperator <==> multiset(deploymentEnv) == multiset(OperatorEnvVars(vars))
  {
    if multiset(deploymentEnv) == multiset(OperatorEnvVars(vars)) {
      OperatorEnvVarsDistinct(vars, sortedOperator);
      SortedPermutationsEqual(sortedOperator, sortedDeployment);
    }
  }

  /** An entry that occurs at two indices occurs at least twice in the multiset. */
  lemma RepeatedEntry(s: seq<EnvVar>, i: int, j: int)
    requires 0 <= i < j < |s| && s[i] == s[j]
    ensures multiset(s)[s[i]] >= 2
  {
    assert s == s[..j] + s[j..];
    assert s[i] in multiset(s[..j]);
    assert s[j..][0] == s[j];
    assert s[j] in multiset(s[j..]);
    assert multiset(s) == multiset(s[..j]) + multiset(s[j..]);
  }

  /** A rearrangement of the operator snapshot still has distinct names. */
  lemma OperatorEnvVarsDistinct(vars: Env, s: seq<EnvVar>)
    requires multiset(s) == multiset(OperatorEnvVars(vars))
    ensures DistinctNames(s)
  {
    var o := OperatorEnvVars(vars);
    assert o == [o[0]] + [o[1]] + [o[2]];
    assert multiset(o) == multiset{o[0]} + multiset{o[1]} + multiset{o[2]};
    if !DistinctNames(s) {
      var i, j :| 0 <= i < j < |s| && s[i].name == s[j].name;
      assert s[i] in multiset(s) && s[j] in multiset(s);
      assert s[i] == s[j];
      RepeatedEntry(s, i, j);
    }
  }
}
