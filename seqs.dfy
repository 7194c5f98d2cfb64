/** Generic sequence helpers: JavaScript's `filter`, `slice(0, n)` and `map` on arrays. */
module Seqs {

  /** `xs` is obtained from `ys` by deleting elements, the rest keeping their order. */
  ghost predicate IsSubseq<T>(xs: seq<T>, ys: seq<T>)
    decreases |ys|
  {
    xs == [] || (ys != [] && ((xs[0] == ys[0] && IsSubseq(xs[1..], ys[1..])) || IsSubseq(xs, ys[1..])))
  }

  /** `s.filter(p)`: the elements satisfying `p`, in their original order. */
  function Filter<T>(p: T -> bool, s: seq<T>): (r: seq<T>)
    ensures |r| <= |s|
    ensures forall i :: 0 <= i < |r| ==> p(r[i])
  {
    if s == [] then []
    else if p(s[0]) then [s[0]] + Filter(p, s[1..])
    else Filter(p, s[1..])
  }

  /** `Filter` only deletes elements, keeping the order of the rest. */
  lemma {:induction false} FilterSubseq<T>(p: T -> bool, s: seq<T>)
    ensures IsSubseq(Filter(p, s), s)
  {
    if s != [] {
      FilterSubseq(p, s[1..]);
      if p(s[0]) {
        assert ([s[0]] + Filter(p, s[1..]))[1..] == Filter(p, s[1..]);
      }
    }
  }

  /** `Filter` keeps exactly the elements that satisfy `p`. */
  lemma {:induction false} FilterMembers<T>(p: T -> bool, s: seq<T>)
    ensures forall x :: x in Filter(p, s) <==> x in s && p(x)
  {
    if s != [] {
      FilterMembers(p, s[1..]);
      assert s == [s[0]] + s[1..];
    }
  }

  /** `Filter` keeps every occurrence of an element satisfying `p` and no occurrence of any other. */
  lemma {:induction false} FilterCount<T>(p: T -> bool, s: seq<T>, x: T)
    ensures multiset(Filter(p, s))[x] == if p(x) then multiset(s)[x] else 0
  {
    if s != [] {
      FilterCount(p, s[1..], x);
      assert s == [s[0]] + s[1..];
    }
  }

  /** `FilterCount` for every element at once. */
  lemma FilterCounts<T>(p: T -> bool, s: seq<T>)
    ensures forall x :: multiset(Filter(p, s))[x] == if p(x) then multiset(s)[x] else 0
  {
    forall x ensures multiset(Filter(p, s))[x] == if p(x) then multiset(s)[x] else 0 {
      FilterCount(p, s, x);
    }
  }

  /** `Filter` takes each element at most as often as it occurs. */
  lemma FilterMultiset<T>(p: T -> bool, s: seq<T>)
    ensures multiset(Filter(p, s)) <= multiset(s)
  {
    FilterCounts(p, s);
  }

  /** Each element of `Filter(p, s)` sits at some index of `s`. */
  lemma {:induction false} FilterSource<T>(p: T -> bool, s: seq<T>, j: nat)
    requires j < |Filter(p, s)|
    ensures exists i :: 0 <= i < |s| && s[i] == Filter(p, s)[j]
  {
    if p(s[0]) && j == 0 {
      assert s[0] == Filter(p, s)[0];
    } else {
      var j' := if p(s[0]) then j - 1 else j;
      FilterSource(p, s[1..], j');
      var i :| 0 <= i < |s| - 1 && s[1..][i] == Filter(p, s[1..])[j'];
      assert s[i + 1] == Filter(p, s)[j];
    }
  }

  /** When every element satisfies `p`, `Filter` changes nothing. */
  lemma {:induction false} FilterAll<T>(p: T -> bool, s: seq<T>)
    requires forall i :: 0 <= i < |s| ==> p(s[i])
    ensures Filter(p, s) == s
  {
    if s != [] {
      FilterAll(p, s[1..]);
      assert s == [s[0]] + s[1..];
    }
  }

  /** Filtering a sequence extended by one element extends the filtered sequence by at most that element. */
  lemma {:induction false} FilterSnoc<T>(p: T -> bool, s: seq<T>, x: T)
    ensures Filter(p, s + [x]) == Filter(p, s) + (if p(x) then [x] else [])
  {
    if s == [] {
      assert s + [x] == [x];
      assert Filter(p, [x]) == (if p(x) then [x] else []) + Filter(p, []);
    } else {
      var t := s + [x];
      assert t[0] == s[0] && t[1..] == s[1..] + [x];
      FilterSnoc(p, s[1..], x);
      var tail := if p(x) then [x] else [];
      if p(s[0]) {
        calc {
          Filter(p, t);
          [s[0]] + Filter(p, s[1..] + [x]);
          [s[0]] + (Filter(p, s[1..]) + tail);
          ([s[0]] + Filter(p, s[1..])) + tail;
        }
      } else {
        calc {
          Filter(p, t);
          Filter(p, s[1..] + [x]);
          Filter(p, s[1..]) + tail;
        }
      }
    }
  }

  /** Counting along a sequence: one more element adds one exactly when it satisfies `p`. */
  lemma FilterPrefixStep<T>(p: T -> bool, s: seq<T>, i: nat)
    requires i < |s|
    ensures |Filter(p, s[..i + 1])| == |Filter(p, s[..i])| + if p(s[i]) then 1 else 0
  {
    assert s[..i + 1] == s[..i] + [s[i]];
    FilterSnoc(p, s[..i], s[i]);
  }

  /** `s.slice(0, n)` for a non-negative `n`: the first `n` elements, or all of them. */
  function Take<T>(s: seq<T>, n: nat): (r: seq<T>)
    ensures |r| <= n && |r| <= |s|
    ensures r == s[..|r|]
    ensures |s| <= n ==> r == s
    ensures n <= |s| ==> |r| == n
  {
    if |s| <= n then s else s[..n]
  }

  /** `s.map(f)`. */
  function Map<A, B>(f: A -> B, s: seq<A>): (r: seq<B>)
    ensures |r| == |s|
    ensures forall i :: 0 <= i < |s| ==> r[i] == f(s[i])
  {
    seq(|s|, i requires 0 <= i < |s| => f(s[i]))
  }

  lemma MapCons<A, B>(f: A -> B, x: A, s: seq<A>)
    ensures Map(f, [x] + s) == [f(x)] + Map(f, s)
  {
    assert forall i :: 1 <= i < |s| + 1 ==> ([x] + s)[i] == s[i - 1];
  }

  /** An order-preserving deletion keeps every element in the larger sequence. */
  lemma {:induction false} SubseqMembers<T>(xs: seq<T>, ys: seq<T>)
    requires IsSubseq(xs, ys)
    ensures forall x :: x in xs ==> x in ys
    decreases |ys|
  {
    if xs != [] {
      if xs[0] == ys[0] && IsSubseq(xs[1..], ys[1..]) {
        SubseqMembers(xs[1..], ys[1..]);
        assert xs == [xs[0]] + xs[1..];
      } else {
        SubseqMembers(xs, ys[1..]);
      }
    }
  }

  /** A prefix is an order-preserving selection. */
  lemma {:induction false} PrefixSubseq<T>(s: seq<T>, n: nat)
    requires n <= |s|
    ensures IsSubseq(s[..n], s)
  {
    if n > 0 {
      PrefixSubseq(s[1..], n - 1);
      assert s[..n][1..] == s[1..][..n - 1];
    }
  }

  /** Order-preserving selection is transitive. */
  lemma {:induction false} SubseqTrans<T>(xs: seq<T>, ys: seq<T>, zs: seq<T>)
    requires IsSubseq(xs, ys) && IsSubseq(ys, zs)
    ensures IsSubseq(xs, zs)
    decreases |zs|
  {
    if xs != [] && zs != [] {
      if ys[0] == zs[0] && IsSubseq(ys[1..], zs[1..]) {
        if xs[0] == ys[0] && IsSubseq(xs[1..], ys[1..]) {
          SubseqTrans(xs[1..], ys[1..], zs[1..]);
        } else {
          SubseqTrans(xs, ys[1..], zs[1..]);
        }
      } else {
        SubseqTrans(xs, ys, zs[1..]);
      }
    }
  }
}
