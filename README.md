# operator-marketplace controller core, modelled in Dafny

This project models the decision logic of the operator-marketplace
controller, which reconciles OperatorSource and CatalogSourceConfig objects
on an OpenShift cluster:

- normalising a CatalogSourceConfig's comma-separated package list
  (`RemoveNamespaces`);
- keeping the operator's three proxy variables (`HTTP_PROXY`, `HTTPS_PROXY`,
  `NO_PROXY`) in step with the cluster Proxy object, with rollback when a
  write fails, and the sort-and-compare drift check of a deployment's
  environment;
- the flag that records whether the cluster serves the `config.openshift.io/v1`
  Proxy API;
- the OperatorSource error tracker (upsert, remove, copy-out, `Sync` against
  the OperatorHub);
- `StatusError`, the error type that carries a reason;
- the watch routing helpers: the child-resource check, the event predicates,
  owner-key recovery from labels, owner dispatch, and the proxy fan-out
  mappers;
- the three phase reconcilers: OperatorSource Configuring, OperatorSource
  Succeeded and CatalogSourceConfig Configuring.

Every call into the cluster, the OS or the registry is an input. The
cluster client (`Cluster.Client`) is a record of the outcomes of its Get
and List calls. Discovery (`ProxyAvailability.Discovery`) is the outcome of
`ServerSupportsVersion`. `os.Setenv` is a `SetenvOutcome`: for each write,
whether it took effect. The registry deployer (`Marketplace.Deployer`) and
the datastore (`Marketplace.Datastore`) are records of what their calls
return. The OperatorHub is its `IsPresentAndEnabled` predicate.

State the source changes in place is held in classes:

- the process environment is `ProxyEnvVars.Environment`;
- the availability flag is `ProxyAvailability.Availability`;
- the error map is `ErrorTracker.OpSrcErrorTracker`;
- the cache is `CatalogSourceConfigReconcilers.Cache`;
- the reconciled objects are `Marketplace.OperatorSource` and
  `Marketplace.CatalogSourceConfig`.

Where ordering matters, a method returns a ghost record of the calls it
made. This covers the look-ups, the cache write before the deploy, and
whether the Get or List was issued at all.

Files, one module each:

| file | module | models |
|---|---|---|
| wrappers.dfy | Wrappers | `Option`, `Result` |
| errors.dfy | Errors | Go `error` values; pkg/status/statuserror.go |
| gostrings.dfy | GoStrings | `strings.Split`/`Join`/`Contains` and Go's string `<` |
| cluster.dfy | Cluster | cluster objects and the client's outcomes |
| csc_helpers.dfy | CatalogSourceConfigHelpers | pkg/catalogsourceconfig/helpers.go |
| proxy_env.dfy | ProxyEnvVars | pkg/proxy/envvar.go |
| proxy_available.dfy | ProxyAvailability | pkg/proxy/available.go |
| proxy_helpers.dfy | ProxyHelpers | pkg/proxy/helpers.go |
| error_tracker.dfy | ErrorTracker | pkg/status/opsrcerrortracker.go |
| watches.dfy | Watches | pkg/watches/helpers.go |
| proxy_mappers.dfy | ProxyMappers | pkg/watches/proxy_csc_mapper.go, pkg/watches/proxy_opsrc_mapper.go |
| marketplace.dfy | Marketplace | the resources, phases and collaborators the reconcilers use |
| opsrc_reconcilers.dfy | OperatorSourceReconcilers | pkg/operatorsource/configuring.go, pkg/operatorsource/succeeded.go |
| csc_reconcilers.dfy | CatalogSourceConfigReconcilers | pkg/catalogsourceconfig/configuring.go |

## Model

| member | source | states |
|---|---|---|
| CatalogSourceConfigHelpers.RemoveNamespaces | pkg/catalogsourceconfig/helpers.go:5-15 | The in-place loop over the split list returns `NamespacesRemoved(packages)`: each comma-separated segment is stripped, and the segments are joined again with "," |
| CatalogSourceConfigHelpers.StripNamespace | pkg/catalogsourceconfig/helpers.go:8-9 | What the loop body makes of one segment. It has no contract of its own; its properties are StripWithoutSlash, StripTakesSecondField and StripExcludes |
| CatalogSourceConfigHelpers.NamespacesRemoved | pkg/catalogsourceconfig/helpers.go:6-12 | The value RemoveNamespaces returns. It has no contract of its own; its properties are NamespacesRemovedSegments, NamespacesRemovedHasNoSlash, NamespacesRemovedWithoutSlash, NamespacesRemovedIdempotent and NamespacesRemovedOf |
| CatalogSourceConfigHelpers.StripAll | pkg/catalogsourceconfig/helpers.go:7-11 | Same length as the segments; each entry is the stripped segment at the same index |
| CatalogSourceConfigHelpers.NamespacesRemovedSegments | pkg/catalogsourceconfig/helpers.go:6-12 | Splitting the output on "," gives exactly the stripped input segments, so the output has as many segments as the input |
| CatalogSourceConfigHelpers.StripWithoutSlash | pkg/catalogsourceconfig/helpers.go:8 | A segment without "/" is kept unchanged |
| CatalogSourceConfigHelpers.StripTakesSecondField | pkg/catalogsourceconfig/helpers.go:8-9 | A segment `ns/name` or `ns/name/rest` becomes `name`: the text between the first and the second "/" |
| CatalogSourceConfigHelpers.StripExcludes | pkg/catalogsourceconfig/helpers.go:8-9 | A stripped segment holds no "/" and no character the segment lacked |
| CatalogSourceConfigHelpers.NamespacesRemovedHasNoSlash | pkg/catalogsourceconfig/helpers.go:6-12 | The output never contains "/" |
| CatalogSourceConfigHelpers.NamespacesRemovedWithoutSlash | pkg/catalogsourceconfig/helpers.go:6-12 | Input without "/" is returned as it is |
| CatalogSourceConfigHelpers.NamespacesRemovedIdempotent | pkg/catalogsourceconfig/helpers.go:6-12 | Applying the normalisation twice gives the same result as applying it once |
| CatalogSourceConfigHelpers.NamespacesRemovedOf | pkg/catalogsourceconfig/helpers.go:6-12 | For a list joined from comma-free segments, the output is the stripped segments joined with "," |
| CatalogSourceConfigHelpers.TwoQualified | pkg/catalogsourceconfig/helpers.go:6-12 | `ns1/n1,ns2/n2` with slash-free and comma-free pieces becomes `n1,n2` |
| CatalogSourceConfigHelpers.TwoQualifiedOnePlain | pkg/catalogsourceconfig/helpers.go:6-12 | `ns1/n1,ns2/n2,t` becomes `n1,n2,t` |
| CatalogSourceConfigHelpers.RemoveNamespacesExample1 | pkg/catalogsourceconfig/helpers_test.go:11-17 | "community-operators/jager,certified-operators/orca" becomes "jager,orca" |
| CatalogSourceConfigHelpers.RemoveNamespacesExample2 | pkg/catalogsourceconfig/helpers_test.go:19-25 | "jager,orca" is returned unchanged |
| CatalogSourceConfigHelpers.RemoveNamespacesExample3 | pkg/catalogsourceconfig/helpers_test.go:27-33 | "some/jager,silly/orca,test" becomes "jager,orca,test" |
| GoStrings.Split | pkg/catalogsourceconfig/helpers.go:6 | `strings.Split` on one character: at least one part, no part holds the separator, and exactly one part iff the separator does not occur |
| GoStrings.Contains | pkg/catalogsourceconfig/helpers.go:8 | `strings.Contains` is true iff the substring occurs at some index |
| GoStrings.Join | pkg/catalogsourceconfig/helpers.go:12 | `strings.Join` with a one-character separator. It requires at least one part, which always holds here because Split never returns an empty list. It has no contract of its own; its properties are JoinSplit, SplitJoin, JoinTwo, JoinThree and JoinExcludes |
| GoStrings.ContainsChar | pkg/catalogsourceconfig/helpers.go:8 | Containing a one-character string is the same as membership of that character |
| GoStrings.SplitNoSep | pkg/catalogsourceconfig/helpers.go:6 | Text without the separator splits into itself alone |
| GoStrings.SplitAfterPrefix | pkg/catalogsourceconfig/helpers.go:9 | Separator-free text followed by the separator is split off as the first part |
| GoStrings.SplitJoin | pkg/catalogsourceconfig/helpers.go:6-12 | Split undoes Join when no part holds the separator |
| GoStrings.JoinSplit | pkg/catalogsourceconfig/helpers.go:6-12 | Join undoes Split |
| GoStrings.JoinTwo | pkg/catalogsourceconfig/helpers.go:12 | Joining two parts puts one separator between them |
| GoStrings.JoinThree | pkg/catalogsourceconfig/helpers.go:12 | Joining three parts puts one separator between each pair |
| GoStrings.JoinExcludes | pkg/catalogsourceconfig/helpers.go:12 | A character that is neither the separator nor in any part is not in the joined text |
| GoStrings.LessIrreflexive | pkg/proxy/envvar.go:105-107 | No name sorts before itself |
| GoStrings.Less | pkg/proxy/envvar.go:106 | Go's `<` on names, character by character. It has no contract of its own; LessIrreflexive, LessTransitive, LessTotal, LessAsymmetric and NotLessTransitive show it is a strict total order |
| GoStrings.LessTransitive | pkg/proxy/envvar.go:105-107 | The name order is transitive |
| GoStrings.LessTotal | pkg/proxy/envvar.go:105-107 | Of two distinct names, one sorts before the other |
| GoStrings.LessAsymmetric | pkg/proxy/envvar.go:105-107 | Two names never each sort before the other |
| GoStrings.NotLessTransitive | pkg/proxy/envvar.go:105-107 | "Not before" is transitive, which the sort relies on |
| Errors.NewStatusError | pkg/status/statuserror.go:58-71 | The result is a status error whose Reason() is the given reason. Its Error() is "" for a nil wrapped error, else the wrapped error's text |
| Errors.Reason | pkg/status/statuserror.go:62-64 | The reason, together with the wrapped error, rebuilds the status error it was read from |
| Errors.ErrorText | pkg/status/statuserror.go:66-71 | Error() of each error value. It has no contract of its own; for a status error, NewStatusError's ensures state it: "" for a nil wrapped error, else the wrapped error's text |
| Errors.IsStatusError | pkg/status/statuserror.go:74-77 | The type check succeeds exactly on a non-nil status error, and then yields that same error |
| Errors.NewStatusErrorIsStatusError | pkg/status/statuserror.go:58-64 | Every value NewStatusError builds passes IsStatusError and keeps its reason |
| Errors.KnownReasonsDistinct | pkg/status/statuserror.go:8-36 | The seven reason constants are pairwise distinct |
| ProxyEnvVars.OperatorEnvVars | pkg/proxy/envvar.go:93-101 | Exactly three entries, in the order NO_PROXY, HTTP_PROXY, HTTPS_PROXY, each with the variable's current value ("" when unset) |
| ProxyEnvVars.Getenv | pkg/proxy/envvar.go:48-50 | os.Getenv: the value of a variable, "" when unset. It has no contract of its own; OperatorEnvVars, SetOperatorEnvVarsRollsBack and WritesAppliedElsewhere state what callers see through it |
| ProxyEnvVars.Environment.GetOperatorEnvVars | pkg/proxy/envvar.go:93-101 | Returns a fresh array holding `OperatorEnvVars` of the current environment |
| ProxyEnvVars.ApplyWrites | pkg/proxy/envvar.go:74-90 | The environment and error after issuing writes one by one, returning at the first failure. It has no contract of its own; its properties are ApplyWritesStopsAtFirstFailure, ApplyWritesElsewhere, SetProxyEnvVarsOrder and SetProxyEnvVarsAccepted |
| ProxyEnvVars.ApplyWritesStopsAtFirstFailure | pkg/proxy/envvar.go:74-90 | Suppose write k is the first one rejected. Then exactly the writes before k take effect, and write k's error is returned |
| ProxyEnvVars.WritesAppliedElsewhere | pkg/proxy/envvar.go:74-90 | Accepted writes leave every variable they do not name as it was |
| ProxyEnvVars.ApplyWritesElsewhere | pkg/proxy/envvar.go:74-90 | Whatever os.Setenv does, a variable not written is left as it was |
| ProxyEnvVars.ProxyWritesNames | pkg/proxy/envvar.go:74-90 | setProxyEnvVars writes exactly HTTP_PROXY, HTTPS_PROXY and NO_PROXY |
| ProxyEnvVars.SetProxyEnvVarsOrder | pkg/proxy/envvar.go:74-90 | The writes go in the order HTTP_PROXY, HTTPS_PROXY, NO_PROXY and stop at the first failure. For each of the four outcomes, the lemma states which values changed and which error is returned |
| ProxyEnvVars.SetProxyEnvVarsAccepted | pkg/proxy/envvar.go:74-90 | When all three writes are accepted, the result is nil and the three values are the given ones |
| ProxyEnvVars.Environment.Setenv | pkg/proxy/envvar.go:75-87 | A write changes the one variable when accepted; otherwise it changes nothing and returns the error |
| ProxyEnvVars.Environment.SetProxyEnvVars | pkg/proxy/envvar.go:74-90 | The new environment and the error are those of `ApplyWrites` on the three writes in source order |
| ProxyEnvVars.Environment.SetOperatorEnvVars | pkg/proxy/envvar.go:33-71 | The new environment and the error are `SetOperatorEnvVarsOutcome` of the old environment; the lemmas below state what that outcome is |
| ProxyEnvVars.SetOperatorEnvVarsOutcome | pkg/proxy/envvar.go:33-71 | The environment and error SetOperatorEnvVars leaves. It has no contract of its own; its properties are SetOperatorEnvVarsNilClient, FetchFails, InStep, Succeeds, RollsBack and Elsewhere |
| ProxyEnvVars.SetOperatorEnvVarsNilClient | pkg/proxy/envvar.go:34-36 | A nil client returns an error and leaves the environment unchanged |
| ProxyEnvVars.SetOperatorEnvVarsFetchFails | pkg/proxy/envvar.go:38-42 | A failed Get of the cluster Proxy returns that error and leaves the environment unchanged |
| ProxyEnvVars.SetOperatorEnvVarsInStep | pkg/proxy/envvar.go:48-59 | When all three values already equal the Proxy's status values, nothing is written, whatever os.Setenv would do, and the result is nil |
| ProxyEnvVars.SetOperatorEnvVarsSucceeds | pkg/proxy/envvar.go:52-64 | When the writes are accepted, the three values become the Proxy's status values and the result is nil |
| ProxyEnvVars.SetOperatorEnvVarsRollsBack | pkg/proxy/envvar.go:48-64 | When a write fails and the rollback writes are accepted, that write's error is returned and the three values are the old ones (as read with Getenv) |
| ProxyEnvVars.SetOperatorEnvVarsElsewhere | pkg/proxy/envvar.go:33-71 | No variable other than the three proxy variables is ever changed |
| ProxyEnvVars.EqualEnvVars | pkg/proxy/envvar.go:111-123 | True iff the lengths match and the entries are equal index by index, that is iff the lists are equal. Hence reflexive, true for two empty lists, and order-sensitive |
| ProxyEnvVars.SortEnvVars | pkg/proxy/envvar.go:104-108 | After the in-place sort, names are non-decreasing and the array is a permutation of its old contents |
| ProxyEnvVars.SortedPermutationsSameHead | pkg/proxy/envvar.go:104-108 | Two sorted permutations of a list with distinct names start with the same entry |
| ProxyEnvVars.TailSorted | pkg/proxy/envvar.go:104-108 | Dropping the first entry keeps a list sorted |
| ProxyEnvVars.TailDistinct | pkg/proxy/envvar.go:104-108 | Dropping the first entry keeps names distinct |
| ProxyEnvVars.SameTails | pkg/proxy/envvar.go:104-108 | Permutations with the same first entry have permuted tails |
| ProxyEnvVars.SortedPermutationsEqual | pkg/proxy/envvar.go:104-108 | Sorting two permutations of a list with distinct names gives equal lists, whatever order the unstable sort picks |
| ProxyEnvVars.OperatorEnvVarsDistinct | pkg/proxy/envvar.go:93-101 | Any rearrangement of the operator snapshot has distinct names |
| ProxyEnvVars.RepeatedEntry | pkg/proxy/envvar.go:93-101 | An entry at two indices occurs at least twice in the list's multiset |
| ProxyEnvVars.SortedCompareDecidesDrift | pkg/proxy/helpers.go:37-49 | Sort both lists, then compare: the results are equal iff the deployment's entries are the operator's three entries in some order |
| ProxyHelpers.CheckDeploymentEnvVars | pkg/proxy/helpers.go:23-50 | If the API is unavailable: (false, nil), and the deployment is never fetched. If the fetch fails: (false, err). Otherwise the result is true iff container 0's entries are not the operator's three entries in some order |
| ProxyAvailability.Availability.constructor | pkg/proxy/available.go:18 | The flag starts false |
| ProxyAvailability.Availability.IsAPIAvailable | pkg/proxy/available.go:45-47 | Reads the flag. It has no contract of its own; CheckDeploymentEnvVars and CheckProxyResource state their behaviour in terms of the flag it returns |
| ProxyAvailability.IsNotSupported | pkg/proxy/available.go:32 | A discovery error whose text contains "server does not support API version". It has no contract of its own; SetProxyAvailability's ensures state that such an error yields nil with the flag unchanged |
| ProxyAvailability.Availability.SetProxyAvailability | pkg/proxy/available.go:22-42 | Nil discovery: an error, flag unchanged. A "server does not support API version" error: nil, flag unchanged. Any other error is returned, flag unchanged. The version is served: the flag becomes true and the result is nil. The flag is never lowered |
| ErrorTracker.OpSrcErrorTracker.constructor | pkg/status/opsrcerrortracker.go:32-37 | A new tracker has no entries |
| ErrorTracker.OpSrcErrorTracker.GetKeysAndMap | pkg/status/opsrcerrortracker.go:39-52 | The copy equals the map. The keys are exactly the map's domain, each once, so their count is the map's size |
| ErrorTracker.OpSrcErrorTracker.GetKeys | pkg/status/opsrcerrortracker.go:84-90 | The keys are exactly the map's domain, each once |
| ErrorTracker.OpSrcErrorTracker.Add | pkg/status/opsrcerrortracker.go:54-58 | The map gains or overwrites key ↦ err; no other entry changes |
| ErrorTracker.OpSrcErrorTracker.Remove | pkg/status/opsrcerrortracker.go:60-64 | The key is absent afterwards and no other entry changes. A missing key is a no-op |
| ErrorTracker.OpSrcErrorTracker.RemoveEntry | pkg/status/opsrcerrortracker.go:78-80 | Deletes the key and nothing else |
| ErrorTracker.OpSrcErrorTracker.Sync | pkg/status/opsrcerrortracker.go:66-74 | The new map is `Synced(old map, IsPresentAndEnabled)` |
| ErrorTracker.Synced | pkg/status/opsrcerrortracker.go:66-74 | The map Sync leaves. It has no contract of its own; its properties are SyncedEntries, SyncedNothingEnabled, SyncedRemovesDisabled, SyncedAllEnabled and SyncedIdempotent |
| ErrorTracker.SyncedEntries | pkg/status/opsrcerrortracker.go:66-74 | A key survives Sync iff it was present and its source is present and enabled, and it keeps its value |
| ErrorTracker.SyncedNothingEnabled | pkg/status/opsrcerrortracker_test.go:83-97 | With no tracked source enabled (an empty hub), Sync empties the tracker |
| ErrorTracker.SyncedRemovesDisabled | pkg/status/opsrcerrortracker_test.go:122-144 | A disabled source's entry is removed and every enabled one is kept |
| ErrorTracker.SyncedAllEnabled | pkg/status/opsrcerrortracker_test.go:99-120 | With every tracked source enabled, Sync changes nothing |
| ErrorTracker.SyncedIdempotent | pkg/status/opsrcerrortracker.go:66-74 | Syncing twice against the same hub equals syncing once |
| ErrorTracker.CloneScenario | pkg/status/opsrcerrortracker_test.go:59-81 | Deleting the only key from the copy empties the copy but leaves the tracker's entry in place |
| Watches.CheckChildResources | pkg/watches/helpers.go:27-80 | True iff some child is missing (any Get error counts): the CatalogSource in the target namespace, the Deployment or Service, and with a secret the ServiceAccount, Role or RoleBinding. Look-ups go in that order and stop at the first missing child. Without a secret the last three are never looked up |
| Watches.GetCscOwnerKey | pkg/watches/helpers.go:165-177 | An owner key exists iff both owner labels are present. Its namespace is the owner-namespace label and its name the owner-name label |
| Watches.CscDeleteFunc | pkg/watches/helpers.go:149-160 | False when the delete state is unknown; otherwise true iff an owner key exists |
| Watches.ChildResourcePredicate | pkg/watches/helpers.go:88-103 | Create, update and generic events are dropped. Deletes go through cscDeleteFunc |
| Watches.ChildDeleteRoutesToOwner | pkg/watches/helpers.go:88-103 | A delete passes the child predicate iff its state is known and its owner key exists |
| Watches.ChildResourceMapper | pkg/watches/helpers.go:100-107 | Only the CatalogSourceConfig owner is accepted. Any other owner yields the error "Unknown owner <owner>" |
| Watches.ProxyPredicate | pkg/watches/helpers.go:182-208 | Create, delete and generic events pass iff the object is named "cluster". An update passes iff the old or the new object is named "cluster" |
| Watches.ProxyMapper | pkg/watches/helpers.go:210-218 | A CatalogSourceConfig owner gets the CatalogSourceConfig fan-out, an OperatorSource owner the OperatorSource one. Any other owner yields "Unknown owner <owner>" |
| Watches.CheckProxyResource | pkg/watches/helpers.go:230-249 | If the API is unavailable: (false, nil), and nothing is fetched. If the fetch fails: (false, err). Otherwise the result is NeedsUpdate of the deployment, with a nil error |
| ProxyMappers.RequestsFor | pkg/watches/proxy_csc_mapper.go:36-39 | One request per listed object, in list order, each with that object's namespace and name |
| ProxyMappers.AppendRequests | pkg/watches/proxy_csc_mapper.go:36-39 | The append loop yields exactly `RequestsFor(items)` |
| ProxyMappers.ProxyToCatalogSourceConfigs.Map | pkg/watches/proxy_csc_mapper.go:20-40 | The new environment and the requests are MapOutcome over the CatalogSourceConfig listing. The environment is brought in step as SetOperatorEnvVars does. If that fails, the result is empty and nothing is listed. If the List fails, the result is empty. Otherwise one request per CatalogSourceConfig, in order |
| ProxyMappers.ProxyToOperatorSources.Map | pkg/watches/proxy_opsrc_mapper.go:20-40 | The same as the CatalogSourceConfig mapper, for the listed OperatorSources |
| ProxyMappers.MapOutcome | pkg/watches/proxy_csc_mapper.go:20-40 | The environment and requests a fan-out mapper leaves. It has no contract of its own; both Map methods are proved equal to it |
| ProxyMappers.ProxyWatchRequests | pkg/watches/helpers.go:180-218 | The proxy watch end to end: owner dispatch, then the predicate, then the owner's mapper. It has no contract of its own; ProxyWatchRouting states what it does |
| ProxyMappers.ProxyWatchRouting | pkg/watches/helpers.go:180-218 | Registering fails exactly for an unknown owner. An event not about the Proxy named "cluster" changes nothing and enqueues nothing. Requests are enqueued only after the environment was brought in step, and then exactly one per listed object of the owner's kind |
| OperatorSourceReconcilers.BuildCatalogSourceConfig | pkg/operatorsource/configuring.go:61-68 | The built CatalogSourceConfig takes the source's name and namespace and its labels plus the two owner labels. Its spec targets the source's namespace, with the looked-up packages, display name and publisher |
| OperatorSourceReconcilers.ConfiguringReconciler.Reconcile | pkg/operatorsource/configuring.go:53-82 | Wrong phase: ErrWrongReconcilerInvoked, no out, no next phase, no calls. Otherwise out is the given object. Package IDs are looked up by UID and the registry resources are created for the built object. On error: stay Configuring with the error's text. On success: EnsurePackagesInStatus runs, then Succeeded |
| OperatorSourceReconcilers.SucceededReconciler.Reconcile | pkg/operatorsource/succeeded.go:43-73 | Wrong phase: ErrWrongReconcilerInvoked. A proxy-check error is returned with out = in and no next phase. Drift: the status is reset to its zero value and the next phase is Configuring. Otherwise (in, nil, nil) with the status unchanged. The only transition ever produced is to Configuring |
| Marketplace.GetNext | pkg/operatorsource/configuring.go:80 | A transition to the named phase without a message of its own. It has no contract of its own; the Reconcile contracts state where it is used |
| Marketplace.GetNextWithMessage | pkg/operatorsource/configuring.go:74 | A transition to the named phase carrying the given message. It has no contract of its own; the Reconcile contracts state that the message is the error's text |
| CatalogSourceConfigReconcilers.Cache.Set | pkg/catalogsourceconfig/configuring.go:51 | The cache holds the given object under its UID afterwards |
| CatalogSourceConfigReconcilers.ConfiguringReconciler.Reconcile | pkg/catalogsourceconfig/configuring.go:41-67 | Wrong phase: ErrWrongReconcilerInvoked, and neither the cache nor the status changes. Otherwise out aliases in, and the cache is set before resource creation, so even when creation fails. On error: stay Configuring with the error's text, status unchanged. On success: the status is what EnsurePackagesInStatus leaves, then Succeeded |

## Left out

- Concurrency: the mutexes of pkg/proxy/envvar.go and pkg/status/opsrcerrortracker.go are not modelled. Each locked operation is one sequential method.
- Logging calls are not modelled.
- cmd/manager/main.go and the end-to-end test suites are not modelled: they are bootstrap code and live-cluster I/O.
- The `c.Watch(...)` registrations of pkg/watches/helpers.go are not modelled, only their predicates and the owner dispatch. The source registers the ServiceAccount watch twice (lines 124-132); nothing in the model depends on that.
- The Kubernetes client, os.Getenv/os.Setenv and discovery are inputs. What a real store or OS would return is not modelled.
- The registry deployer, the datastore and the cache implementation (pkg/registry, pkg/datastore) are not part of this model, nor is the CatalogSourceConfig builder, which is defined elsewhere in pkg/operatorsource. The deployer and datastore are given by their outcomes.
- CatalogSourceConfigReconcilers.ConfiguringReconciler.Reconcile: `CreateRegistryResources` (pkg/registry, not part of this model) receives the object by pointer; the model assumes it does not change the object it is given, which is why the status is unchanged when creation fails. Only `EnsurePackagesInStatus` is taken to change the status.
- CatalogSourceConfigReconcilers.Cache.Set: the cache is taken to keep the latest value per object UID. The model stores a copy of the object as it is at the time of Set. Go passes a pointer, and EnsurePackagesInStatus later changes that same object's status. Whether the real cache copies the object is not part of this model, so the model does not promise what a later read of the cache sees.
- The CatalogSourceConfig owner-label constants (`builders.CscOwnerNameLabel`, `builders.CscOwnerNamespaceLabel`, used at pkg/watches/helpers.go:166 and 171) are defined in pkg/builders, which is not part of this model; their values `csc-owner-name` and `csc-owner-namespace` are assumed. The OperatorSource owner labels put on by `WithOwnerLabel` are defined elsewhere in pkg/operatorsource, not part of this model; their names `opsrc-owner-name` and `opsrc-owner-namespace` are assumed.
- OperatorSourceReconcilers.BuildCatalogSourceConfig: the builder's type meta is not modelled, and the built object's UID is left empty.
- OperatorSourceReconcilers.BuildCatalogSourceConfig: the builder methods (`CatalogSourceConfigBuilder`) are defined elsewhere in pkg/operatorsource, not part of this model, so the contract rests on two assumptions. First, `WithOwnerLabel` is applied after `WithLabels`, so an existing label of the same name is overwritten by the owner label. Second, the first argument of `WithSpec` is the target namespace.
- Marketplace.GetNext: the phase package's own message for a transition is not modelled (the message is `None`). The phase package's sentinel error text is a stand-in.
- Marketplace.OperatorSource: the status is reduced to its current phase. The other status fields are not modelled, so resetting the status means resetting the phase.
- ProxyHelpers.CheckDeploymentEnvVars: requires the fetched deployment to have at least one container. Go indexes `Containers[0]` unguarded and would panic on an empty list.
- ProxyHelpers.CheckDeploymentEnvVars: sorts copies of the deployment's variables, so the in-place sort of the fetched object (pkg/proxy/helpers.go:41) does not show after the call. The object is a local that is dropped afterwards.
- Watches.CheckProxyResource: `proxy.NeedsUpdate` is not in the modelled files. Its decision on the fetched deployment is an input.
- Cluster.EnvVar: `ValueFrom` references are not modelled. The variables compared are name and literal value.
- ProxyEnvVars.SortEnvVars: sort.Slice is not stable, so only sortedness and permutation are promised. The model uses an insertion sort, which is one admissible order.
- ErrorTracker.OpSrcErrorTracker.GetKeys: Go's map iteration order is unspecified, so the keys are promised as a duplicate-free listing of the domain, in no particular order.
- ProxyEnvVars.SetOperatorEnvVarsRollsBack: after a rollback, a variable that was unset before is set to "" (the source writes back the os.Getenv value). The promise is about the values Getenv reads, not about whether the variable is set.
- ProxyAvailability.Availability.IsAPIAvailable: it only reads the flag, so it has no contract of its own. Callers use the flag through the contracts of CheckDeploymentEnvVars and CheckProxyResource.
- The doc comments of the two Configuring reconcilers (a "Failed" phase on error, a deep copy of the object) disagree with the code. The model follows the code: the phase stays Configuring and `out` aliases `in`.
