/** Sorting by any total order; stands for `sort_values`, `orderBy` and `argsort`. */
module Sorting {
  ghost predicate TotalOrder<T(!new)>(leq: (T, T) -> bool) {
    && (forall x, y :: leq(x, y) || leq(y, x))
    && (forall x, y, z :: leq(x, y) && leq(y, z) ==> leq(x, z))
  }

  ghost predicate Sorted<T>(s: seq<T>, leq: (T, T) -> bool) {
    forall i, j :: 0 <= i < j < |s| ==> leq(s[i], s[j])
  }

  lemma AllInMultiset<T(!new)>(s: seq<T>, t: seq<T>, x: T, max: T, leq: (T, T) -> bool)
    requires TotalOrder(leq) && leq(x, max) && multiset(t) == multiset(s) + multiset{x}
    requires forall y :: y in s ==> leq(y, max)
    ensures forall y :: y in t ==> leq(y, max)
  {
    forall y | y in t ensures leq(y, max) {
      assert y in multiset(t);
    }
  }

  function Insert<T(!new)>(s: seq<T>, x: T, leq: (T, T) -> bool): (r: seq<T>)
    requires TotalOrder(leq) && Sorted(s, leq)
    ensures Sorted(r, leq) && multiset(r) == multiset(s) + multiset{x}
  {
    if s == [] then [x]
    else
      var n := |s| - 1;
      assert s == s[..n] + [s[n]];
      if leq(s[n], x) then s + [x]
      else
        var r := Insert(s[..n], x, leq);
        AllInMultiset(s[..n], r, x, s[n], leq);
        r + [s[n]]
  }

  function Sort<T(!new)>(s: seq<T>, leq: (T, T) -> bool): (r: seq<T>)
    requires TotalOrder(leq)
    ensures Sorted(r, leq) && multiset(r) == multiset(s) && |r| == |s|
  {
    if s == [] then []
    else
      assert s == s[..|s| - 1] + [s[|s| - 1]];
      var r := Insert(Sort(s[..|s| - 1], leq), s[|s| - 1], leq);
      assert |r| == |multiset(r)| && |s| == |multiset(s)|;
      r
  }

  /** Leaving out element `i` leaves the last one, if that is another, where it is. */
  lemma LastStays<T>(s: seq<T>, i: nat)
    requires i < |s| - 1
    ensures
      var n := |s| - 1;
      s[..i] + s[i + 1..] == (s[..n][..i] + s[..n][i + 1..]) + [s[n]]
  {
  }

  /** A multiset of elements loses `x` where the sequence drops one occurrence of it. */
  lemma FindAndRemove<T>(t: seq<T>, x: T) returns (i: nat)
    requires x in multiset(t)
    ensures i < |t| && t[i] == x
    ensures multiset(t[..i] + t[i + 1..]) == multiset(t) - multiset{x}
  {
    i :| 0 <= i < |t| && t[i] == x;
    assert t == t[..i] + [t[i]] + t[i + 1..];
  }
}
