/**
 * The OperatorSource error tracker (pkg/status/opsrcerrortracker.go): a map
 * from OperatorSource name to the last error seen for it. The mutex that
 * serialises its methods is not modelled; each method is one atomic step.
 *
 * The OperatorHub consulted by Sync is reduced to its IsPresentAndEnabled
 * predicate on source names.
 */
module ErrorTracker {
  import opened Wrappers
  import opened Errors

  /** An error value as stored by Add; Go lets a nil error be stored, hence the Option. */
  type ErrorMap = map<string, Option<Error>>

  /** Keys lists the domain of errors once each. */
  ghost predicate ListsKeys(keys: seq<string>, errors: ErrorMap)
  {
    (forall i, j :: 0 <= i < j < |keys| ==> keys[i] != keys[j]) &&
    (forall k :: k in errors <==> k in keys)
  }

  /** What Sync keeps: the entries whose source is present and enabled, with their values. */
  function Synced(errors: ErrorMap, isPresentAndEnabled: string -> bool): ErrorMap
  {
    map k | k in errors && isPresentAndEnabled(k) :: errors[k]
  }

  class OpSrcErrorTracker {
    var opsrcErrors: ErrorMap

    /** NewOpSrcErrorTracker: no entries. */
    constructor()
      ensures opsrcErrors == map[]
    {
      opsrcErrors := map[];
    }

    /** GetKeysAndMap: the keys, once each, and a copy of the map. */
    method GetKeysAndMap() returns (keys: seq<string>, clone: ErrorMap)
      ensures clone == opsrcErrors
      ensures ListsKeys(keys, opsrcErrors)
      ensures |keys| == |opsrcErrors|
    {
      clone := map[];
      var remaining := opsrcErrors.Keys;
      while remaining != {}
        invariant remaining <= opsrcErrors.Keys
        invariant clone.Keys == opsrcErrors.Keys - remaining
        invariant forall k :: k in clone ==> clone[k] == opsrcErrors[k]
        decreases |remaining|
      {
        var key :| key in remaining;
        clone := clone[key := opsrcErrors[key]];
        remaining := remaining - {key};
      }
      keys := GetKeys();
    }

    /** Add: records err for key, replacing any earlier entry. */
    method Add(key: string, err: Option<Error>)
      modifies this
      ensures opsrcErrors == old(opsrcErrors)[key := err]
    {
      opsrcErrors := opsrcErrors[key := err];
    }

    /** Remove: forgets key; a missing key is not an error. */
    method Remove(key: string)
      modifies this
      ensures opsrcErrors == old(opsrcErrors) - {key}
    {
      RemoveEntry(key);
    }

    /** Sync: drops every entry whose source is not present and enabled. */
    method Sync(isPresentAndEnabled: string -> bool)
      modifies this
      ensures opsrcErrors == Synced(old(opsrcErrors), isPresentAndEnabled)
    {
      var keys := GetKeys();
      ghost var visited: set<string> := {};
      for i := 0 to |keys|
        invariant opsrcErrors.Keys <= old(opsrcErrors).Keys
        invariant forall k :: k in opsrcErrors ==> opsrcErrors[k] == old(opsrcErrors)[k]
        invariant forall k :: k in old(opsrcErrors) ==> (k in opsrcErrors <==> (k in visited ==> isPresentAndEnabled(k)))
        invariant forall j :: 0 <= j < i ==> keys[j] in visited
      {
        if !isPresentAndEnabled(keys[i]) {
          RemoveEntry(keys[i]);
        }
        visited := visited + {keys[i]};
      }
    }

    /** remove. */
    method RemoveEntry(key: string)
      modifies this
      ensures opsrcErrors == old(opsrcErrors) - {key}
    {
      opsrcErrors := opsrcErrors - {key};
    }

    /** getKeys: the keys, once each, in an unspecified order. */
    method GetKeys() returns (keys: seq<string>)
      ensures ListsKeys(keys, opsrcErrors)
      ensures |keys| == |opsrcErrors|
    {
      keys := [];
      var remaining := opsrcErrors.Keys;
      while remaining != {}
        invariant remaining <= opsrcErrors.Keys
        invariant forall i, j :: 0 <= i < j < |keys| ==> keys[i] != keys[j]
        invariant forall k :: k in keys <==> k in opsrcErrors && k !in remaining
        invariant |keys| + |remaining| == |opsrcErrors.Keys|
        decreases |remaining|
      {
        var key :| key in remaining;
        keys := keys + [key];
        remaining := remaining - {key};
      }
    }
  }

  /** Sync keeps exactly the enabled entries, with their values unchanged. */
  lemma SyncedEntries(errors: ErrorMap, isPresentAndEnabled: string -> bool, k: string)
    ensures k in Synced(errors, isPresentAndEnabled) <==> k in errors && isPresentAndEnabled(k)
    ensures k in Synced(errors, isPresentAndEnabled) ==> Synced(errors, isPresentAndEnabled)[k] == errors[k]
  {
  }

  /** With no source present and enabled (an empty hub, or every source disabled) Sync empties the tracker. */
  lemma SyncedNothingEnabled(errors: ErrorMap, isPresentAndEnabled: string -> bool)
    requires forall k :: k in errors ==> !isPresentAndEnabled(k)
    ensures Synced(errors, isPresentAndEnabled) == map[]
  {
    assert Synced(errors, isPresentAndEnabled).Keys == {};
  }

  /** A disabled source's entry is removed; every other entry is left as it was. */
  lemma SyncedRemovesDisabled(errors: ErrorMap, isPresentAndEnabled: string -> bool, key: string)
    requires !isPresentAndEnabled(key)
    requires forall k :: k in errors && k != key ==> isPresentAndEnabled(k)
    ensures Synced(errors, isPresentAndEnabled) == errors - {key}
  {
  }

  /** With every entry's source enabled, Sync changes nothing. */
  lemma SyncedAllEnabled(errors: ErrorMap, isPresentAndEnabled: string -> bool)
    requires forall k :: k in errors ==> isPresentAndEnabled(k)
    ensures Synced(errors, isPresentAndEnabled) == errors
  {
  }

  /** Syncing twice against the same hub is the same as syncing once. */
  lemma SyncedIdempotent(errors: ErrorMap, isPresentAndEnabled: string -> bool)
    ensures Synced(Synced(errors, isPresentAndEnabled), isPresentAndEnabled) == Synced(errors, isPresentAndEnabled)
  {
  }

  /**
   * The clone test: deleting from the copy GetKeysAndMap returns leaves the
   * tracker's own entries in place.
   */
  method CloneScenario(key: string, err: Error) returns (cloneSize: int, trackerErrors: ErrorMap)
    ensures cloneSize == 0
    ensures trackerErrors == map[key := Some(err)]
  {
    var tracker := new OpSrcErrorTracker();
    tracker.Add(key, Some(err));
    var keys, clone := tracker.GetKeysAndMap();
    assert keys[0] in tracker.opsrcErrors;
    clone := clone - {keys[0]};
    cloneSize := |clone|;
    var keysAfter;
    keysAfter, trackerErrors := tracker.GetKeysAndMap();
  }
}
