/** Sequence operations shared by the catalog, the cart store and the listing filter:
    `Array.prototype.filter`, order-preserving subsequences, and the
    first-appearance de-duplication that `Array.from(new Set(...))` performs. */
module Seqs {

  /** `xs.filter(p)`: the elements of `s` that satisfy `p`, in their original order. */
  function Filter<T(!new)>(s: seq<T>, p: T -> bool): (r: seq<T>)
    ensures |r| <= |s|
    ensures forall x :: x in r <==> x in s && p(x)
  {
    if s == [] then []
    else if p(s[0]) then [s[0]] + Filter(s[1..], p)
    else Filter(s[1..], p)
  }

  /** A filter keeps every copy of a survivor: each element satisfying `p` occurs in the
      result exactly as often as in `s`, and no other element occurs. */
  lemma {:induction false} FilterCounts<T(!new)>(s: seq<T>, p: T -> bool)
    ensures forall x :: multiset(Filter(s, p))[x] == if p(x) then multiset(s)[x] else 0
  {
    if s != [] {
      FilterCounts(s[1..], p);
      assert s == [s[0]] + s[1..];
      assert multiset(s) == multiset([s[0]]) + multiset(s[1..]);
    }
  }

  /** `r` can be obtained from `s` by deleting elements, without reordering. */
  ghost predicate IsSubsequence<T>(r: seq<T>, s: seq<T>)
  {
    r == [] ||
    (s != [] && ((r[0] == s[0] && IsSubsequence(r[1..], s[1..])) || IsSubsequence(r, s[1..])))
  }

  /** A filter keeps the survivors in their original relative order. */
  lemma {:induction false} FilterIsSubsequence<T(!new)>(s: seq<T>, p: T -> bool)
    ensures IsSubsequence(Filter(s, p), s)
  {
    if s != [] {
      FilterIsSubsequence(s[1..], p);
      if p(s[0]) {
        assert Filter(s, p)[1..] == Filter(s[1..], p);
      }
    }
  }

  /** Filtering with a predicate every element satisfies changes nothing. */
  lemma {:induction false} FilterKeepsAll<T(!new)>(s: seq<T>, p: T -> bool)
    requires forall i :: 0 <= i < |s| ==> p(s[i])
    ensures Filter(s, p) == s
  {
    if s != [] {
      assert p(s[0]);
      FilterKeepsAll(s[1..], p);
      assert [s[0]] + s[1..] == s;
    }
  }

  /** When exactly the element at index `k` fails `p`, the filter deletes just that element. */
  lemma {:induction false} FilterDropsOne<T(!new)>(s: seq<T>, p: T -> bool, k: nat)
    requires k < |s| && !p(s[k])
    requires forall i :: 0 <= i < |s| && i != k ==> p(s[i])
    ensures Filter(s, p) == s[..k] + s[k + 1..]
  {
    if k == 0 {
      FilterKeepsAll(s[1..], p);
    } else {
      FilterDropsOne(s[1..], p, k - 1);
      assert p(s[0]);
      assert s[1..][..k - 1] == s[1..k];
      assert s[1..][k..] == s[k + 1..];
      assert [s[0]] + s[1..k] == s[..k];
    }
  }

  /** Two successive filters are one filter with the conjunction, in `s`'s order. */
  lemma {:induction false} FilterCompose<T(!new)>(s: seq<T>, p: T -> bool, q: T -> bool, pq: T -> bool)
    requires forall x :: pq(x) == (p(x) && q(x))
    ensures Filter(Filter(s, p), q) == Filter(s, pq)
  {
    if s != [] {
      FilterCompose(s[1..], p, q, pq);
      if p(s[0]) {
        assert Filter(s, p) == [s[0]] + Filter(s[1..], p);
        assert Filter(s, p)[1..] == Filter(s[1..], p);
      }
    }
  }

  /** Filters with pointwise equal predicates are equal. */
  lemma {:induction false} FilterCongruence<T(!new)>(s: seq<T>, p: T -> bool, q: T -> bool)
    requires forall x :: p(x) == q(x)
    ensures Filter(s, p) == Filter(s, q)
  {
    if s != [] {
      FilterCongruence(s[1..], p, q);
    }
  }

  /** No value occurs twice in `s`. */
  predicate NoDuplicates<T(==)>(s: seq<T>)
  {
    forall i, j :: 0 <= i < j < |s| ==> s[i] != s[j]
  }

  /** The position of the first occurrence of `x` in `s`. */
  function FirstIndex<T(==)>(s: seq<T>, x: T): (r: nat)
    requires x in s
    ensures r < |s| && s[r] == x
    ensures forall j :: 0 <= j < r ==> s[j] != x
  {
    if s[0] == x then 0
    else
      assert x in s[1..] by { assert s == [s[0]] + s[1..]; }
      FirstIndex(s[1..], x) + 1
  }

  /** `Array.from(new Set(s))`: each value of `s` once, kept at the place of its first
      insertion (a `Set` ignores re-insertion of a value it already holds). */
  function Dedup<T(==,!new)>(s: seq<T>): (r: seq<T>)
    ensures NoDuplicates(r)
    ensures forall x :: x in r <==> x in s
  {
    if s == [] then []
    else
      var d := Dedup(s[..|s| - 1]);
      var last := s[|s| - 1];
      assert s == s[..|s| - 1] + [last];
      if last in d then d else d + [last]
  }

  /** The first index of `x` is already determined by any prefix that contains `x`. */
  lemma FirstIndexOfPrefix<T>(s: seq<T>, m: nat, x: T)
    requires m <= |s| && x in s[..m]
    ensures FirstIndex(s, x) == FirstIndex(s[..m], x) < m
  {
    var a, b := FirstIndex(s, x), FirstIndex(s[..m], x);
    assert s[b] == x;
    assert a <= b;
    assert s[..m][a] == x;
  }

  /** `Dedup` lists values in order of their first appearance in `s`. */
  lemma {:induction false} DedupFirstAppearanceOrder<T(!new)>(s: seq<T>)
    ensures forall i, j :: 0 <= i < j < |Dedup(s)| ==>
      FirstIndex(s, Dedup(s)[i]) < FirstIndex(s, Dedup(s)[j])
  {
    if s != [] {
      var n := |s|;
      var init := s[..n - 1];
      var d := Dedup(init);
      var last := s[n - 1];
      DedupFirstAppearanceOrder(init);
      assert s[..n - 1] == init;
      forall i, j | 0 <= i < j < |Dedup(s)|
        ensures FirstIndex(s, Dedup(s)[i]) < FirstIndex(s, Dedup(s)[j])
      {
        assert d[i] in init;
        FirstIndexOfPrefix(s, n - 1, d[i]);
        if j < |d| {
          assert d[j] in init;
          FirstIndexOfPrefix(s, n - 1, d[j]);
        } else {
          assert Dedup(s)[j] == last && last !in init;
          assert FirstIndex(s, last) == n - 1;
        }
      }
    }
  }
}
