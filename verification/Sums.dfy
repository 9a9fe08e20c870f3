/** Sums of one real-valued figure over a sequence, and what survives splitting or rounding it. */
module Sums {
  import opened Decimals

  /** The sum of `f` over `s`, accumulated from the front as a loop does. */
  function SumBy<T>(s: seq<T>, f: T -> real): real {
    if s == [] then 0.0 else SumBy(s[..|s| - 1], f) + f(s[|s| - 1])
  }

  lemma SumPrefix<T>(s: seq<T>, f: T -> real, n: nat)
    requires n < |s|
    ensures SumBy(s[..n + 1], f) == SumBy(s[..n], f) + f(s[n])
  {
    assert s[..n + 1][..n] == s[..n];
  }

  lemma SumAll<T>(s: seq<T>, f: T -> real)
    ensures SumBy(s[..|s|], f) == SumBy(s, f)
  {
    assert s[..|s|] == s;
  }

  lemma SumOne<T>(x: T, f: T -> real)
    ensures SumBy([x], f) == f(x)
  {
    assert [x][..0] == [];
  }

  lemma {:induction false} SumConcat<T>(a: seq<T>, b: seq<T>, f: T -> real)
    ensures SumBy(a + b, f) == SumBy(a, f) + SumBy(b, f)
  {
    if b == [] {
      assert a + b == a;
    } else {
      var n := |b| - 1;
      assert (a + b)[..|a + b| - 1] == a + b[..n];
      SumConcat(a, b[..n], f);
    }
  }

  lemma SumAppend<T>(a: seq<T>, x: T, f: T -> real)
    ensures SumBy(a + [x], f) == SumBy(a, f) + f(x)
  {
    assert (a + [x])[..|a|] == a;
  }

  /** Replacing one element moves the sum by the difference of the two. */
  lemma SumUpdate<T>(s: seq<T>, k: nat, x: T, f: T -> real)
    requires k < |s|
    ensures SumBy(s[k := x], f) == SumBy(s, f) - f(s[k]) + f(x)
  {
    assert s == s[..k] + [s[k]] + s[k + 1..];
    assert s[k := x] == s[..k] + [x] + s[k + 1..];
    SumConcat(s[..k] + [s[k]], s[k + 1..], f);
    SumConcat(s[..k] + [x], s[k + 1..], f);
    SumAppend(s[..k], s[k], f);
    SumAppend(s[..k], x, f);
  }

  lemma {:induction false} SumOnGrid<T>(s: seq<T>, f: T -> real, p: real)
    requires forall x :: x in s ==> OnGrid(p, f(x))
    ensures OnGrid(p, SumBy(s, f))
  {
    if s == [] {
      ZeroOnGrid(p);
    } else {
      SumOnGrid(s[..|s| - 1], f, p);
      OnGridSum(p, SumBy(s[..|s| - 1], f), f(s[|s| - 1]));
    }
  }

  lemma {:induction false} SumNonNegative<T>(s: seq<T>, f: T -> real)
    requires forall x :: x in s ==> f(x) >= 0.0
    ensures SumBy(s, f) >= 0.0
  {
    if s == [] {
    } else {
      SumNonNegative(s[..|s| - 1], f);
    }
  }

  /** Two sequences whose figures agree place by place have the same sum. */
  lemma {:induction false} SumCongruent<T, U>(a: seq<T>, f: T -> real, b: seq<U>, g: U -> real)
    requires |a| == |b|
    requires forall i :: 0 <= i < |a| ==> f(a[i]) == g(b[i])
    ensures SumBy(a, f) == SumBy(b, g)
  {
    if a == [] {
    } else {
      SumCongruent(a[..|a| - 1], f, b[..|b| - 1], g);
    }
  }

  /** `d` added up `n` times. */
  function Times(n: nat, d: real): real {
    if n == 0 then 0.0 else Times(n - 1, d) + d
  }

  lemma {:induction false} TimesProduct(n: nat, d: real)
    ensures Times(n, d) == n as real * d
  {
    if n == 0 {
    } else {
      TimesProduct(n - 1, d);
      Distribute((n - 1) as real, 1.0, d);
    }
  }

  /** Figures that are pairwise within `d` have sums within `d` per element. */
  lemma {:induction false} SumWithin<T, U>(a: seq<T>, f: T -> real, b: seq<U>, g: U -> real, d: real)
    requires |a| == |b|
    requires forall i :: 0 <= i < |a| ==> Abs(f(a[i]) - g(b[i])) <= d
    ensures Abs(SumBy(a, f) - SumBy(b, g)) <= Times(|a|, d)
  {
    if a == [] {
    } else {
      var n := |a| - 1;
      SumWithin(a[..n], f, b[..n], g, d);
      Triangle(SumBy(a[..n], f) - SumBy(b[..n], g), f(a[n]) - g(b[n]), Times(n, d), d);
    }
  }

  lemma Triangle(x: real, y: real, c: real, d: real)
    requires Abs(x) <= c && Abs(y) <= d
    ensures Abs(x + y) <= c + d
  {
  }

  /** A sum of figures, each of which is another two added together. */
  lemma {:induction false} SumAdd<T>(s: seq<T>, f: T -> real, g: T -> real, h: T -> real)
    requires forall x :: x in s ==> h(x) == f(x) + g(x)
    ensures SumBy(s, h) == SumBy(s, f) + SumBy(s, g)
  {
    if s == [] {
    } else {
      SumAdd(s[..|s| - 1], f, g, h);
    }
  }
}
