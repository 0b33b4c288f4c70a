/** Finite sums of exact amounts, and rounding to the cent. */
module Sums {

  function SumOver<T(!new)>(xs: seq<T>, f: T -> real): real {
    if xs == [] then 0.0 else SumOver(xs[..|xs| - 1], f) + f(xs[|xs| - 1])
  }

  lemma SumOneMore<T(!new)>(xs: seq<T>, x: T, f: T -> real)
    ensures SumOver(xs + [x], f) == SumOver(xs, f) + f(x)
  {
    assert (xs + [x])[..|xs|] == xs;
  }

  function Drop<T>(xs: seq<T>, i: nat): (r: seq<T>)
    requires i < |xs|
    ensures |r| == |xs| - 1
  {
    xs[..i] + xs[i + 1..]
  }

  lemma DropBag<T>(xs: seq<T>, i: nat)
    requires i < |xs|
    ensures multiset(Drop(xs, i)) == multiset(xs) - multiset{xs[i]}
  {
    assert xs == xs[..i] + [xs[i]] + xs[i + 1..];
  }

  lemma {:induction false} SumWithout<T(!new)>(xs: seq<T>, i: nat, f: T -> real)
    requires i < |xs|
    ensures SumOver(xs, f) == SumOver(Drop(xs, i), f) + f(xs[i])
  {
    var n := |xs| - 1;
    if i == n {
      assert xs[..i] + xs[i + 1..] == xs[..n];
    } else {
      SumWithout(xs[..n], i, f);
      assert xs[..n][..i] == xs[..i];
      assert xs[..i] + xs[i + 1..] == (xs[..n][..i] + xs[..n][i + 1..]) + [xs[n]];
      SumOneMore(xs[..n][..i] + xs[..n][i + 1..], xs[n], f);
    }
  }

  /** A sum does not depend on the order of its terms. */
  lemma {:induction false} SumPermuted<T(!new)>(xs: seq<T>, ys: seq<T>, f: T -> real)
    requires multiset(xs) == multiset(ys)
    ensures SumOver(xs, f) == SumOver(ys, f)
    decreases |xs|
  {
    assert |xs| == |multiset(xs)| == |ys|;
    if xs != [] {
      assert xs[0] in multiset(ys);
      var i :| 0 <= i < |ys| && ys[i] == xs[0];
      DropBag(xs, 0);
      DropBag(ys, i);
      SumPermuted(Drop(xs, 0), Drop(ys, i), f);
      SumWithout(xs, 0, f);
      SumWithout(ys, i, f);
    }
  }

  lemma {:induction false} SumSame<T(!new)>(xs: seq<T>, f: T -> real, g: T -> real)
    requires forall x | x in xs :: f(x) == g(x)
    ensures SumOver(xs, f) == SumOver(xs, g)
  {
    if xs != [] {
      assert xs[|xs| - 1] in xs;
      SumSame(xs[..|xs| - 1], f, g);
    }
  }

  lemma {:induction false} SumMapped<S(!new), T(!new)>(xs: seq<S>, ys: seq<T>, f: S -> real, g: T -> real)
    requires |xs| == |ys| && forall i | 0 <= i < |xs| :: f(xs[i]) == g(ys[i])
    ensures SumOver(xs, f) == SumOver(ys, g)
  {
    if xs != [] {
      SumMapped(xs[..|xs| - 1], ys[..|ys| - 1], f, g);
    }
  }

  /** Terms that differ at one element of a list without repetitions. */
  lemma {:induction false} SumBumped<T(!new)>(xs: seq<T>, f: T -> real, g: T -> real, x: T, d: real)
    requires x in xs && (forall i, j | 0 <= i < j < |xs| :: xs[i] != xs[j])
    requires g(x) == f(x) + d && forall y | y in xs && y != x :: g(y) == f(y)
    ensures SumOver(xs, g) == SumOver(xs, f) + d
  {
    var n := |xs| - 1;
    if xs[n] == x {
      SumSame(xs[..n], f, g);
    } else {
      assert xs[n] in xs;
      SumBumped(xs[..n], f, g, x, d);
    }
  }

  /** Rounding each of `k` terms moves the sum by at most `k` times the largest error. */
  lemma {:induction false} SumClose<T(!new)>(xs: seq<T>, f: T -> real, g: T -> real, e: real)
    requires forall x | x in xs :: -e <= f(x) - g(x) <= e
    ensures -(|xs| as real) * e <= SumOver(xs, f) - SumOver(xs, g) <= (|xs| as real) * e
  {
    if xs != [] {
      var n := |xs| - 1;
      assert xs[n] in xs;
      SumClose(xs[..n], f, g, e);
      assert (|xs| as real) * e == (n as real) * e + e;
    }
  }

  lemma {:induction false} SumNonNegative<T(!new)>(xs: seq<T>, f: T -> real)
    requires forall x | x in xs :: f(x) >= 0.0
    ensures SumOver(xs, f) >= 0.0
  {
    if xs != [] {
      assert xs[|xs| - 1] in xs;
      SumNonNegative(xs[..|xs| - 1], f);
    }
  }

  // ---------- rounding ----------

  /** Nearest integer, halves away from zero: ROUND_HALF_UP, and `toFixed` on an exact value. */
  function HalfUp(x: real): (n: int)
    ensures -0.5 <= n as real - x <= 0.5
  {
    if x >= 0.0 then (x + 0.5).Floor else -((-x + 0.5).Floor)
  }

  /** An amount rounded to the cent. */
  function Cents(x: real): (r: real)
    ensures -0.005 <= r - x <= 0.005
  {
    HalfUp(100.0 * x) as real / 100.0
  }

  function Cent(n: int): real {
    n as real / 100.0
  }

  /** The amount is a whole number of cents. */
  ghost predicate Whole(x: real) {
    exists n: int :: x == Cent(n)
  }

  lemma CentsWhole(x: real)
    ensures Whole(Cents(x))
  {
    assert Cents(x) == Cent(HalfUp(100.0 * x));
  }

  lemma HalfUpExact(n: int)
    ensures HalfUp(n as real) == n
  {
  }

  lemma CentsExact(x: real)
    requires Whole(x)
    ensures Cents(x) == x
  {
    var n: int :| x == Cent(n);
    assert 100.0 * x == n as real;
    HalfUpExact(n);
  }

  lemma WholeSum(x: real, y: real)
    requires Whole(x) && Whole(y)
    ensures Whole(x + y)
  {
    var n: int :| x == Cent(n);
    var m: int :| y == Cent(m);
    assert x + y == Cent(n + m);
  }

  lemma {:induction false} WholeSums<T(!new)>(xs: seq<T>, f: T -> real)
    requires forall x | x in xs :: Whole(f(x))
    ensures Whole(SumOver(xs, f))
  {
    if xs == [] {
      assert 0.0 == Cent(0);
    } else {
      assert xs[|xs| - 1] in xs;
      WholeSums(xs[..|xs| - 1], f);
      WholeSum(SumOver(xs[..|xs| - 1], f), f(xs[|xs| - 1]));
    }
  }

  /** Exactly between two cents. */
  predicate Tie(x: real) {
    100.0 * x + 0.5 == (100.0 * x + 0.5).Floor as real
  }

  /** Adding a whole number of cents commutes with rounding, except when an exact half changes sign. */
  lemma CentsShiftIff(n: int, v: real)
    ensures var m := Cent(n);
            Cents(m + v) == m + Cents(v) <==> !(Tie(v) && (v < 0.0) != (m + v < 0.0))
  {
    var x := 100.0 * v;
    assert 100.0 * (Cent(n) + v) == n as real + x;
    var f := x.Floor;
    assert (n as real + x).Floor == n + f;
    assert (-x).Floor == if x == f as real then -f else -f - 1;
    var t := x - f as real;
    assert 0.0 <= t < 1.0;
    RoundFrom(f, t);
    RoundFrom(n + f, t);
    assert n as real + x == (n + f) as real + t;
  }

  /** Rounding by the fractional part. */
  lemma RoundFrom(f: int, t: real)
    requires 0.0 <= t < 1.0
    ensures var x := f as real + t;
            HalfUp(x) == if t < 0.5 then f else if t > 0.5 then f + 1 else if x >= 0.0 then f + 1 else f
    ensures (f as real + t + 0.5 == (f as real + t + 0.5).Floor as real) <==> t == 0.5
  {
    var x := f as real + t;
    assert (x + 0.5).Floor == if t < 0.5 then f else f + 1;
    if x < 0.0 {
      assert (-x + 0.5) == (-f) as real + (0.5 - t);
      assert (-x + 0.5).Floor == if t <= 0.5 then -f else -f - 1;
    }
  }

  /** Rounding goes to the nearest integer, and from exactly between two away from zero. */
  lemma HalfUpIs(x: real)
    ensures var e := HalfUp(x) as real - x;
            -0.5 <= e <= 0.5 && (e == 0.5 ==> x > 0.0) && (e == -0.5 ==> x < 0.0)
  {
    var f := x.Floor;
    RoundFrom(f, x - f as real);
  }
}
