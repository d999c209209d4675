/**
 * Sequence searches and filters used by the selection logic and the
 * formation sampler: `Iterator::find` as the index of the first match, and
 * `drain_filter` / `retain` as order-keeping filters.
 */
module Seqs {

  /** The index of the first element satisfying `p`, or `|s|` when none does. */
  function Find<X>(s: seq<X>, p: X -> bool): (k: nat)
    ensures k <= |s|
    ensures k < |s| ==> p(s[k])
    ensures forall j :: 0 <= j < k ==> !p(s[j])
  {
    if s == [] then 0
    else if p(s[0]) then 0
    else 1 + Find(s[1..], p)
  }

  /** `Find` is the only index with its contract: a loop that stops at the first match computes it. */
  lemma FindUnique<X>(s: seq<X>, p: X -> bool, k: nat)
    requires k <= |s|
    requires k < |s| ==> p(s[k])
    requires forall j :: 0 <= j < k ==> !p(s[j])
    ensures k == Find(s, p)
  {
  }

  /** The elements of `s` satisfying `p`, in their original order. */
  function Filter<X(!new)>(s: seq<X>, p: X -> bool): (r: seq<X>)
    ensures |r| <= |s|
    ensures forall x :: x in r <==> x in s && p(x)
  {
    if s == [] then []
    else if p(s[0]) then [s[0]] + Filter(s[1..], p)
    else Filter(s[1..], p)
  }

  /** Filtering a concatenation filters each part and keeps them in order. */
  lemma {:induction false} FilterAppend<X(!new)>(a: seq<X>, b: seq<X>, p: X -> bool)
    ensures Filter(a + b, p) == Filter(a, p) + Filter(b, p)
    decreases |a|
  {
    if a != [] {
      assert (a + b)[1..] == a[1..] + b;
      FilterAppend(a[1..], b, p);
    } else {
      assert a + b == b;
    }
  }

  /**
   * Splitting by `p` and by its negation `notP` loses and duplicates nothing: the
   * two parts together are a permutation of `s`.
   */
  lemma {:induction false} FilterPartition<X(!new)>(s: seq<X>, p: X -> bool, notP: X -> bool)
    requires forall x :: notP(x) == !p(x)
    ensures multiset(Filter(s, p)) + multiset(Filter(s, notP)) == multiset(s)
    decreases |s|
  {
    if s != [] {
      FilterPartition(s[1..], p, notP);
      assert s == [s[0]] + s[1..];
    }
  }

  /** Two tests that agree on every element of `s` find the same index. */
  lemma {:induction false} FindAgree<X>(s: seq<X>, p1: X -> bool, p2: X -> bool)
    requires forall i :: 0 <= i < |s| ==> p1(s[i]) == p2(s[i])
    ensures Find(s, p1) == Find(s, p2)
  {
    FindUnique(s, p2, Find(s, p1));
  }

  /**
   * Searching a filtered sequence for `p` finds the same element as searching
   * the whole sequence for "kept and `p`": the first `p` among the kept
   * elements is the first element that is both.
   */
  lemma {:induction false} FindInFilter<X(!new)>(s: seq<X>, q: X -> bool, p: X -> bool, r: X -> bool)
    requires forall x :: r(x) == (q(x) && p(x))
    ensures Find(Filter(s, q), p) < |Filter(s, q)| <==> Find(s, r) < |s|
    ensures Find(s, r) < |s| ==> Filter(s, q)[Find(Filter(s, q), p)] == s[Find(s, r)]
    decreases |s|
  {
    if s != [] {
      var t := s[1..];
      FindInFilter(t, q, p, r);
      if q(s[0]) {
        assert Filter(s, q) == [s[0]] + Filter(t, q);
        if !p(s[0]) {
          assert Filter(s, q)[1..] == Filter(t, q);
        }
      }
    }
  }
}
