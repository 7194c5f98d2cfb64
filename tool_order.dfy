/**
 * The order the discovery run saves the directory in: `allTools.sort((a, b) => ...)`
 * comparing categories and, for equal categories, names, each with `localeCompare`.
 * The locale comparison is modelled by a fixed total order on strings (code-point
 * lexicographic order), and the engine's sort by an insertion sort. The result is promised
 * sorted and a permutation of the input; the relative order of tools with equal keys is not.
 */
module ToolOrder {
  import opened ToolRecords

  /** Lexicographic order on code points: stands for `a.localeCompare(b) <= 0`. */
  predicate StrLe(a: string, b: string)
    decreases |a|
  {
    a == [] || (b != [] && (a[0] < b[0] || (a[0] == b[0] && StrLe(a[1..], b[1..]))))
  }

  lemma {:induction false} StrLeTotal(a: string, b: string)
    ensures StrLe(a, b) || StrLe(b, a)
    decreases |a|
  {
    if a != [] && b != [] && a[0] == b[0] {
      StrLeTotal(a[1..], b[1..]);
    }
  }

  lemma {:induction false} StrLeAntisymmetric(a: string, b: string)
    requires StrLe(a, b) && StrLe(b, a)
    ensures a == b
    decreases |a|
  {
    if a != [] {
      StrLeAntisymmetric(a[1..], b[1..]);
      assert a == [a[0]] + a[1..] && b == [b[0]] + b[1..];
    }
  }

  lemma {:induction false} StrLeTransitive(a: string, b: string, c: string)
    requires StrLe(a, b) && StrLe(b, c)
    ensures StrLe(a, c)
    decreases |a|
  {
    if a != [] && a[0] == b[0] && b[0] == c[0] {
      StrLeTransitive(a[1..], b[1..], c[1..]);
    }
  }

  /** The source's comparator, as "a may come before b": category first, then name. */
  predicate ToolLe(a: Tool, b: Tool) {
    if a.category == b.category then StrLe(a.name, b.name) else StrLe(a.category, b.category)
  }

  lemma ToolLeTotal(a: Tool, b: Tool)
    ensures ToolLe(a, b) || ToolLe(b, a)
  {
    StrLeTotal(a.name, b.name);
    StrLeTotal(a.category, b.category);
  }

  lemma ToolLeTransitive(a: Tool, b: Tool, c: Tool)
    requires ToolLe(a, b) && ToolLe(b, c)
    ensures ToolLe(a, c)
  {
    if a.category == b.category && b.category == c.category {
      StrLeTransitive(a.name, b.name, c.name);
    } else if a.category != b.category && b.category != c.category {
      StrLeTransitive(a.category, b.category, c.category);
      if a.category == c.category {
        StrLeAntisymmetric(a.category, b.category);
      }
    }
  }

  /** Every tool comes no later than every tool after it: ordered by category, then name. */
  ghost predicate SortedByCategoryName(s: seq<Tool>) {
    forall i, j :: 0 <= i < j < |s| ==> ToolLe(s[i], s[j])
  }

  /** Inserts `x` before the first element it may precede. */
  function Insert(x: Tool, s: seq<Tool>): (r: seq<Tool>)
    ensures |r| == |s| + 1
    ensures multiset(r) == multiset(s) + multiset{x}
  {
    if s == [] || ToolLe(x, s[0]) then [x] + s
    else
      assert s == [s[0]] + s[1..];
      [s[0]] + Insert(x, s[1..])
  }

  /** Inserting into an ordered sequence keeps it ordered. */
  lemma {:induction false} InsertKeepsOrder(x: Tool, s: seq<Tool>)
    requires SortedByCategoryName(s)
    ensures SortedByCategoryName(Insert(x, s))
  {
    var r := Insert(x, s);
    if s == [] || ToolLe(x, s[0]) {
      forall j | 1 <= j < |r| ensures ToolLe(x, r[j]) {
        if j > 1 { ToolLeTransitive(x, s[0], s[j - 1]); }
      }
    } else {
      var rest := Insert(x, s[1..]);
      assert r == [s[0]] + rest;
      assert s == [s[0]] + s[1..];
      InsertKeepsOrder(x, s[1..]);
      ToolLeTotal(x, s[0]);
      forall j | 1 <= j < |r| ensures ToolLe(s[0], r[j]) {
        assert r[j] == rest[j - 1];
        assert r[j] in multiset(rest);
        if r[j] != x {
          assert r[j] in multiset(s[1..]);
          var k :| 0 <= k < |s[1..]| && s[1..][k] == r[j];
          assert s[k + 1] == r[j];
        }
      }
    }
  }

  /** The saved order: sorted by category, then name. */
  function SortByCategoryName(s: seq<Tool>): (r: seq<Tool>)
    ensures |r| == |s|
    ensures multiset(r) == multiset(s)
    ensures SortedByCategoryName(r)
  {
    if s == [] then []
    else
      assert s == [s[0]] + s[1..];
      var rest := SortByCategoryName(s[1..]);
      InsertKeepsOrder(s[0], rest);
      Insert(s[0], rest)
  }
}
