/**
 * The one persisted entity: a tool record of the directory's JSON file, and the lookup
 * by name (`tools.findIndex(t => t.name === name)`) that every maintenance script uses
 * to write back into the array.
 */
module ToolRecords {
  import opened Wrappers

  /** Timestamps are integer milliseconds since the epoch. */
  const HOUR_MS: int := 60 * 60 * 1000
  const DAY_MS: int := 24 * HOUR_MS

  /**
   * A directory entry. An absent `description` is the empty string (both are falsy in the
   * source); `popularity` and `dateAdded` are absent until a backfill script or the
   * discovery run sets them.
   */
  datatype Tool = Tool(
    name: string,
    category: string,
    description: string,
    pricing: string,
    features: seq<string>,
    url: string,
    logo: string,
    icon: string,
    popularity: Option<int>,
    dateAdded: Option<int>)

  /** The index of the first tool called `name`, or -1. */
  function FindByName(s: seq<Tool>, name: string): (r: int)
    ensures -1 <= r < |s|
    ensures r == -1 <==> forall i :: 0 <= i < |s| ==> s[i].name != name
    ensures r >= 0 ==> s[r].name == name && forall i :: 0 <= i < r ==> s[i].name != name
  {
    if s == [] then -1
    else if s[0].name == name then 0
    else
      var k := FindByName(s[1..], name);
      if k == -1 then -1 else k + 1
  }

  /** No two entries share a name (the directory's intended invariant). */
  ghost predicate UniqueNames(s: seq<Tool>) {
    forall i, j :: 0 <= i < j < |s| ==> s[i].name != s[j].name
  }

  /** With unique names, the lookup of an entry's name finds that entry. */
  lemma {:induction false} FindByNameUnique(s: seq<Tool>, m: nat)
    requires UniqueNames(s) && m < |s|
    ensures FindByName(s, s[m].name) == m
  {
    if m > 0 {
      assert s[0].name != s[m].name;
      assert s[1..][m - 1] == s[m];
      FindByNameUnique(s[1..], m - 1);
    }
  }

  /** Two arrays of the same length whose entries carry the same names, position by position. */
  ghost predicate SameNames(s: seq<Tool>, t: seq<Tool>) {
    |s| == |t| && forall i :: 0 <= i < |s| ==> s[i].name == t[i].name
  }

  /** The lookup only looks at names, so rewriting other fields does not move it. */
  lemma FindByNameSameNames(s: seq<Tool>, t: seq<Tool>, name: string)
    requires SameNames(s, t)
    ensures FindByName(s, name) == FindByName(t, name)
  {
    if s != [] {
      FindByNameSameNames(s[1..], t[1..], name);
    }
  }
}
