/**
 * Package-name normalisation of the catalogsourceconfig package
 * (pkg/catalogsourceconfig/helpers.go): a comma-separated package list in
 * which an entry may be qualified as "<namespace>/<package>".
 */
module CatalogSourceConfigHelpers {
  import opened GoStrings

  /** What RemoveNamespaces makes of one comma-separated segment. */
  function StripNamespace(segment: string): string
  {
    if Contains(segment, "/") then
      ContainsChar(segment, '/');
      Split(segment, '/')[1]
    else
      segment
  }

  /** Every segment stripped, in order. */
  function StripAll(parts: seq<string>): (r: seq<string>)
    ensures |r| == |parts|
    ensures forall i :: 0 <= i < |parts| ==> r[i] == StripNamespace(parts[i])
  {
    seq(|parts|, i requires 0 <= i < |parts| => StripNamespace(parts[i]))
  }

  /** The value RemoveNamespaces returns for packages. */
  function NamespacesRemoved(packages: string): string
  {
    Join(StripAll(Split(packages, ',')), ',')
  }

  /**
   * RemoveNamespaces: split on ",", overwrite each entry that contains "/"
   * with its second "/"-separated field, and join again with ",".
   */
  method RemoveNamespaces(packages: string) returns (r: string)
    ensures r == NamespacesRemoved(packages)
  {
    var parts := Split(packages, ',');
    var packageList := new string[|parts|](i requires 0 <= i < |parts| => parts[i]);
    for i := 0 to packageList.Length
      invariant forall k :: 0 <= k < i ==> packageList[k] == StripNamespace(parts[k])
      invariant forall k :: i <= k < packageList.Length ==> packageList[k] == parts[k]
    {
      if Contains(packageList[i], "/") {
        ContainsChar(packageList[i], '/');
        packageList[i] := Split(packageList[i], '/')[1];
      }
    }
    assert packageList[..] == StripAll(parts);
    r := Join(packageList[..], ',');
  }

  /** Splitting never introduces a character the text did not hold. */
  lemma {:induction false} SplitPartsExclude(s: string, sep: char, c: char)
    requires c !in s
    ensures forall i :: 0 <= i < |Split(s, sep)| ==> c !in Split(s, sep)[i]
    decreases |s|
  {
    if |s| > 0 {
      SplitPartsExclude(s[1..], sep, c);
    }
  }

  /** A segment without "/" is kept as it is. */
  lemma StripWithoutSlash(segment: string)
    requires '/' !in segment
    ensures StripNamespace(segment) == segment
  {
    ContainsChar(segment, '/');
  }

  /**
   * A segment with "/" becomes the text between its first and its second "/"
   * (or the end of the segment).
   */
  lemma StripTakesSecondField(ns: string, name: string, rest: string)
    requires '/' !in ns && '/' !in name
    ensures StripNamespace(ns + "/" + name) == name
    ensures StripNamespace(ns + "/" + name + "/" + rest) == name
  {
    var s1 := ns + "/" + name;
    ContainsChar(s1, '/');
    SplitAfterPrefix(ns, name, '/');
    SplitNoSep(name, '/');
    var s2 := ns + "/" + name + "/" + rest;
    assert s2 == ns + ['/'] + (name + ['/'] + rest);
    ContainsChar(s2, '/');
    SplitAfterPrefix(ns, name + ['/'] + rest, '/');
    SplitAfterPrefix(name, rest, '/');
  }

  /** A stripped segment holds no "/" and no character the segment lacked. */
  lemma StripExcludes(segment: string, c: char)
    requires c !in segment
    ensures '/' !in StripNamespace(segment)
    ensures c !in StripNamespace(segment)
  {
    ContainsChar(segment, '/');
    if '/' in segment {
      SplitPartsExclude(segment, '/', c);
    }
  }

  /** The parts of the result are exactly the stripped parts of the input. */
  lemma NamespacesRemovedSegments(packages: string)
    ensures Split(NamespacesRemoved(packages), ',') == StripAll(Split(packages, ','))
    ensures |Split(NamespacesRemoved(packages), ',')| == |Split(packages, ',')|
  {
    var parts := Split(packages, ',');
    forall i | 0 <= i < |parts| ensures ',' !in StripAll(parts)[i] {
      StripExcludes(parts[i], ',');
    }
    SplitJoin(StripAll(parts), ',');
  }

  /** The result holds no "/". */
  lemma NamespacesRemovedHasNoSlash(packages: string)
    ensures '/' !in NamespacesRemoved(packages)
  {
    var parts := Split(packages, ',');
    forall i | 0 <= i < |parts| ensures '/' !in StripAll(parts)[i] {
      StripExcludes(parts[i], ',');
    }
    JoinExcludes(StripAll(parts), ',', '/');
  }

  /** Input without "/" is returned unchanged. */
  lemma NamespacesRemovedWithoutSlash(packages: string)
    requires '/' !in packages
    ensures NamespacesRemoved(packages) == packages
  {
    var parts := Split(packages, ',');
    SplitPartsExclude(packages, ',', '/');
    forall i | 0 <= i < |parts| ensures StripAll(parts)[i] == parts[i] {
      StripWithoutSlash(parts[i]);
    }
    assert StripAll(parts) == parts;
    JoinSplit(packages, ',');
  }

  /** Removing namespaces twice is the same as removing them once. */
  lemma NamespacesRemovedIdempotent(packages: string)
    ensures NamespacesRemoved(NamespacesRemoved(packages)) == NamespacesRemoved(packages)
  {
    NamespacesRemovedHasNoSlash(packages);
    NamespacesRemovedWithoutSlash(NamespacesRemoved(packages));
  }

  /** The result for a list given by its segments, none of which holds ",". */
  lemma NamespacesRemovedOf(parts: seq<string>)
    requires |parts| >= 1
    requires forall i :: 0 <= i < |parts| ==> ',' !in parts[i]
    ensures NamespacesRemoved(Join(parts, ',')) == Join(StripAll(parts), ',')
  {
    SplitJoin(parts, ',');
  }

  /** Two qualified segments. */
  lemma TwoQualified(ns1: string, n1: string, ns2: string, n2: string)
    requires '/' !in ns1 && '/' !in n1 && '/' !in ns2 && '/' !in n2
    requires ',' !in ns1 && ',' !in n1 && ',' !in ns2 && ',' !in n2
    ensures NamespacesRemoved(ns1 + "/" + n1 + "," + ns2 + "/" + n2) == n1 + "," + n2
  {
    var a, b := ns1 + "/" + n1, ns2 + "/" + n2;
    JoinTwo(a, b, ',');
    assert ns1 + "/" + n1 + "," + ns2 + "/" + n2 == Join([a, b], ',');
    QualifiedHasNoComma(ns1, n1);
    QualifiedHasNoComma(ns2, n2);
    NamespacesRemovedOf([a, b]);
    StripTwo(a, b);
    StripTakesSecondField(ns1, n1, "");
    StripTakesSecondField(ns2, n2, "");
    JoinTwo(n1, n2, ',');
  }

  /**
   * The first test vector, "community-operators/jager,certified-operators/orca"
   * becomes "jager,orca", stated with its four pieces named.
   */
  lemma RemoveNamespacesExample1(ns1: string, n1: string, ns2: string, n2: string)
    requires ns1 == "community-operators" && n1 == "jager"
    requires ns2 == "certified-operators" && n2 == "orca"
    ensures NamespacesRemoved(ns1 + "/" + n1 + "," + ns2 + "/" + n2) == n1 + "," + n2
  {
    TwoQualified(ns1, n1, ns2, n2);
  }

  /** The second test vector: "jager,orca" is returned as it is, stated with its two pieces named. */
  lemma RemoveNamespacesExample2(n1: string, n2: string)
    requires n1 == "jager" && n2 == "orca"
    ensures NamespacesRemoved(n1 + "," + n2) == n1 + "," + n2
  {
    assert '/' !in n1 && '/' !in n2;
    NamespacesRemovedWithoutSlash(n1 + "," + n2);
  }

  /** A qualified segment built from comma-free pieces holds no ",". */
  lemma QualifiedHasNoComma(ns: string, name: string)
    requires ',' !in ns && ',' !in name
    ensures ',' !in ns + "/" + name
  {
  }

  /** Stripping a two-segment list segment by segment. */
  lemma StripTwo(a: string, b: string)
    ensures StripAll([a, b]) == [StripNamespace(a), StripNamespace(b)]
  {
  }

  /** Stripping a three-segment list segment by segment. */
  lemma StripThree(a: string, b: string, c: string)
    ensures StripAll([a, b, c]) == [StripNamespace(a), StripNamespace(b), StripNamespace(c)]
  {
  }

  /** Two qualified segments followed by a plain one. */
  lemma TwoQualifiedOnePlain(ns1: string, n1: string, ns2: string, n2: string, t: string)
    requires '/' !in ns1 && '/' !in n1 && '/' !in ns2 && '/' !in n2 && '/' !in t
    requires ',' !in ns1 && ',' !in n1 && ',' !in ns2 && ',' !in n2 && ',' !in t
    ensures NamespacesRemoved(ns1 + "/" + n1 + "," + ns2 + "/" + n2 + "," + t) == n1 + "," + n2 + "," + t
  {
    var a, b := ns1 + "/" + n1, ns2 + "/" + n2;
    JoinThree(a, b, t, ',');
    assert ns1 + "/" + n1 + "," + ns2 + "/" + n2 + "," + t == Join([a, b, t], ',');
    QualifiedHasNoComma(ns1, n1);
    QualifiedHasNoComma(ns2, n2);
    NamespacesRemovedOf([a, b, t]);
    StripThree(a, b, t);
    StripTakesSecondField(ns1, n1, "");
    StripTakesSecondField(ns2, n2, "");
    StripWithoutSlash(t);
    JoinThree(n1, n2, t, ',');
  }

  /**
   * The third test vector, "some/jager,silly/orca,test" becomes
   * "jager,orca,test", stated with its five pieces named.
   */
  lemma RemoveNamespacesExample3(ns1: string, n1: string, ns2: string, n2: string, t: string)
    requires ns1 == "some" && n1 == "jager" && ns2 == "silly" && n2 == "orca" && t == "test"
    ensures NamespacesRemoved(ns1 + "/" + n1 + "," + ns2 + "/" + n2 + "," + t) == n1 + "," + n2 + "," + t
  {
    TwoQualifiedOnePlain(ns1, n1, ns2, n2, t);
  }
}
