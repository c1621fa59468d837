/**
 * `orderBy(column)` and `limit(n)` of the query builder, over row indices.
 * A sequence of indices is ordered by the integer key each index has in
 * `keys`; equal keys keep their storage order (the database leaves ties
 * unspecified, so this is one admissible choice).
 */
module Ordering {

  function KeyOf(keys: seq<int>, i: nat): int
  {
    if i < |keys| then keys[i] else 0
  }

  ghost predicate SortedBy(s: seq<nat>, keys: seq<int>)
  {
    forall p, q :: 0 <= p < q < |s| ==> KeyOf(keys, s[p]) <= KeyOf(keys, s[q])
  }

  ghost predicate Distinct(s: seq<nat>)
  {
    forall p, q :: 0 <= p < q < |s| ==> s[p] != s[q]
  }

  /** Puts `x` in front of the first index whose key is not smaller. */
  function Insert(x: nat, s: seq<nat>, keys: seq<int>): (r: seq<nat>)
    ensures |r| == |s| + 1
    ensures forall y :: y in r <==> y == x || y in s
    ensures SortedBy(s, keys) ==> SortedBy(r, keys)
    ensures Distinct(s) && x !in s ==> Distinct(r)
  {
    if s == [] || KeyOf(keys, x) <= KeyOf(keys, s[0]) then
      [x] + s
    else
      var rest := Insert(x, s[1..], keys);
      assert forall y :: y in s[1..] ==> y in s;
      HeadBelowRest(x, s, rest, keys);
      ConsDistinct(s[0], rest);
      [s[0]] + rest
  }

  lemma HeadBelowRest(x: nat, s: seq<nat>, rest: seq<nat>, keys: seq<int>)
    requires s != [] && KeyOf(keys, s[0]) < KeyOf(keys, x)
    requires forall y :: y in rest <==> y == x || y in s[1..]
    requires SortedBy(s, keys) ==> SortedBy(rest, keys)
    ensures SortedBy(s, keys) ==> SortedBy([s[0]] + rest, keys)
  {
    if SortedBy(s, keys) {
      forall j | 0 <= j < |rest|
        ensures KeyOf(keys, s[0]) <= KeyOf(keys, rest[j])
      {
        var y := rest[j];
        assert y in rest;
        if y != x {
          var q :| 0 <= q < |s[1..]| && s[1..][q] == y;
          assert s[q + 1] == y;
        }
      }
      var t := [s[0]] + rest;
      forall p, q | 0 <= p < q < |t|
        ensures KeyOf(keys, t[p]) <= KeyOf(keys, t[q])
      {
        if p > 0 {
          assert t[p] == rest[p - 1] && t[q] == rest[q - 1];
        } else {
          assert t[q] == rest[q - 1];
        }
      }
    }
  }

  lemma ConsDistinct(a: nat, t: seq<nat>)
    ensures a !in t && Distinct(t) ==> Distinct([a] + t)
  {
    if a !in t && Distinct(t) {
      var u := [a] + t;
      forall p, q | 0 <= p < q < |u|
        ensures u[p] != u[q]
      {
        assert u[q] == t[q - 1];
        if p > 0 {
          assert u[p] == t[p - 1];
        }
      }
    }
  }

  /** Insertion sort of the indices by their keys, ascending. */
  function SortBy(s: seq<nat>, keys: seq<int>): (r: seq<nat>)
    ensures |r| == |s|
    ensures forall y :: y in r <==> y in s
    ensures SortedBy(r, keys)
    ensures Distinct(s) ==> Distinct(r)
  {
    if s == [] then []
    else
      assert forall y :: y in s[1..] ==> y in s;
      assert Distinct(s) ==> s[0] !in s[1..] && Distinct(s[1..]);
      Insert(s[0], SortBy(s[1..], keys), keys)
  }

  /** Inserting adds exactly one occurrence of `x` and keeps every other element with its multiplicity. */
  lemma {:induction false} InsertPermutes(x: nat, s: seq<nat>, keys: seq<int>)
    ensures multiset(Insert(x, s, keys)) == multiset(s) + multiset{x}
    decreases |s|
  {
    if !(s == [] || KeyOf(keys, x) <= KeyOf(keys, s[0])) {
      InsertPermutes(x, s[1..], keys);
      assert s == [s[0]] + s[1..];
    }
  }

  /** The sort is a permutation: each index occurs as often in the result as in the input. */
  lemma {:induction false} SortByPermutes(s: seq<nat>, keys: seq<int>)
    ensures multiset(SortBy(s, keys)) == multiset(s)
    decreases |s|
  {
    if s != [] {
      SortByPermutes(s[1..], keys);
      InsertPermutes(s[0], SortBy(s[1..], keys), keys);
      assert s == [s[0]] + s[1..];
    }
  }

  /** How many rows `limit(n)` keeps out of `count`: a negative `n` sets no limit. */
  function LimitCount(count: nat, n: int): (k: nat)
    ensures k <= count
    ensures n >= 0 ==> k <= n
    ensures k == count || k == n
  {
    if n < 0 || n >= count then count else n
  }

  /** `limit(n)` applied to an ordered result. */
  function Limit(s: seq<nat>, n: int): (r: seq<nat>)
    ensures |r| == LimitCount(|s|, n)
    ensures r == s[..|r|]
  {
    s[..LimitCount(|s|, n)]
  }

  /**
   * The first `k` elements of a sorted sequence without repeats are
   * no greater than any element left out.
   */
  lemma {:induction false} LimitKeepsSmallest(s: seq<nat>, n: int, keys: seq<int>, x: nat, y: nat)
    requires SortedBy(s, keys) && Distinct(s)
    requires x in Limit(s, n) && y in s && y !in Limit(s, n)
    ensures KeyOf(keys, x) <= KeyOf(keys, y)
  {
    var r := Limit(s, n);
    var p :| 0 <= p < |r| && r[p] == x;
    var q :| 0 <= q < |s| && s[q] == y;
    assert s[p] == x;
    assert p < q;
  }

  lemma LimitDistinct(s: seq<nat>, n: int)
    requires Distinct(s)
    ensures Distinct(Limit(s, n))
  {
  }

  lemma LimitSorted(s: seq<nat>, n: int, keys: seq<int>)
    requires SortedBy(s, keys)
    ensures SortedBy(Limit(s, n), keys)
  {
  }
}
