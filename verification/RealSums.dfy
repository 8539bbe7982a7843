/** Finite sums of real-valued terms over a sequence. */
module RealSums {
  import opened Sorting

  function Abs(x: real): (r: real)
    ensures r >= 0.0 && (r == x || r == -x)
  {
    if x < 0.0 then -x else x
  }

  predicate IsProduct(x: real, y: real, product: real) {
    x * y == product
  }

  lemma NonNegativeProduct(x: real, y: real)
    requires x >= 0.0 && y >= 0.0
    ensures x * y >= 0.0
  {
  }

  function Sum<T>(s: seq<T>, f: T -> real): real {
    if s == [] then 0.0 else Sum(s[..|s| - 1], f) + f(s[|s| - 1])
  }

  lemma {:induction false} SumConcat<T>(s: seq<T>, t: seq<T>, f: T -> real)
    ensures Sum(s + t, f) == Sum(s, f) + Sum(t, f)
    decreases |t|
  {
    if t == [] {
      assert s + t == s;
    } else {
      var n := |t| - 1;
      assert (s + t)[..|s + t| - 1] == s + t[..n];
      SumConcat(s, t[..n], f);
    }
  }

  lemma {:induction false} SumPermuted<T>(s: seq<T>, t: seq<T>, f: T -> real)
    requires multiset(s) == multiset(t)
    ensures Sum(s, f) == Sum(t, f)
    decreases |s|
  {
    if s == [] {
      assert |t| == |multiset(t)| == 0;
    } else {
      var n := |s| - 1;
      assert s == s[..n] + [s[n]];
      var i := FindAndRemove(t, s[n]);
      assert t == t[..i] + [t[i]] + t[i + 1..];
      SumConcat(t[..i] + [t[i]], t[i + 1..], f);
      SumConcat(t[..i], [t[i]], f);
      SumConcat(t[..i], t[i + 1..], f);
      assert Sum([t[i]], f) == f(t[i]) by { assert [t[i]][..0] == []; }
      SumPermuted(s[..n], t[..i] + t[i + 1..], f);
    }
  }

  lemma {:induction false} SumAtMost<T>(s: seq<T>, f: T -> real, g: T -> real)
    requires forall i :: 0 <= i < |s| ==> f(s[i]) <= g(s[i])
    ensures Sum(s, f) <= Sum(s, g)
  {
    if s != [] {
      SumAtMost(s[..|s| - 1], f, g);
    }
  }

  lemma {:induction false} SumOfDifferences<T>(s: seq<T>, f: T -> real, g: T -> real, h: T -> real)
    requires forall i :: 0 <= i < |s| ==> f(s[i]) - g(s[i]) >= h(s[i])
    ensures Sum(s, f) - Sum(s, g) >= Sum(s, h)
  {
    if s != [] {
      SumOfDifferences(s[..|s| - 1], f, g, h);
    }
  }

  lemma {:induction false} SumScaled<T>(s: seq<T>, d: real, f: T -> real, h: T -> real)
    requires forall i :: 0 <= i < |s| ==> h(s[i]) == d * f(s[i])
    ensures Sum(s, h) == d * Sum(s, f)
  {
    if s != [] {
      var n := |s| - 1;
      SumScaled(s[..n], d, f, h);
      assert d * Sum(s, f) == d * Sum(s[..n], f) + d * f(s[n]);
    }
  }

  /** The triangle inequality. */
  lemma {:induction false} SumAbsolute<T>(s: seq<T>, f: T -> real, g: T -> real)
    requires forall i :: 0 <= i < |s| ==> Abs(f(s[i])) <= g(s[i])
    ensures Abs(Sum(s, f)) <= Sum(s, g)
  {
    if s != [] {
      SumAbsolute(s[..|s| - 1], f, g);
    }
  }

  lemma {:induction false} SumZero<T>(s: seq<T>, f: T -> real)
    requires forall i :: 0 <= i < |s| ==> f(s[i]) == 0.0
    ensures Sum(s, f) == 0.0
  {
    if s != [] {
      SumZero(s[..|s| - 1], f);
    }
  }

  lemma {:induction false} SumSubtract<T>(s: seq<T>, f: T -> real, g: T -> real, h: T -> real)
    requires forall i :: 0 <= i < |s| ==> f(s[i]) - g(s[i]) == h(s[i])
    ensures Sum(s, f) - Sum(s, g) == Sum(s, h)
  {
    if s != [] {
      SumSubtract(s[..|s| - 1], f, g, h);
    }
  }
}
