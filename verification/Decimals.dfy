/** Decimal rounding as `rust_decimal` performs it, over exact reals. */
module Decimals {

  /** The rounding strategies a pricing policy may name. */
  datatype Strategy =
    | MidpointNearestEven
    | MidpointAwayFromZero
    | MidpointTowardZero
    | ToZero
    | AwayFromZero
    | ToNegativeInfinity
    | ToPositiveInfinity
  {
    /** Whether the strategy always picks one of the nearest representable values. */
    predicate IsNearest() {
      MidpointNearestEven? || MidpointAwayFromZero? || MidpointTowardZero?
    }
  }

  /** 10 to the power `dp`. */
  function Pow10(dp: nat): (p: real)
    ensures p >= 1.0
  {
    if dp == 0 then 1.0 else 10.0 * Pow10(dp - 1)
  }

  function Abs(x: real): real {
    if x < 0.0 then -x else x
  }

  function Max(x: real, y: real): real {
    if x < y then y else x
  }

  function Min(x: real, y: real): real {
    if y < x then y else x
  }

  function Ceil(x: real): int {
    if x.Floor as real == x then x.Floor else x.Floor + 1
  }

  /** Rounds to a whole number. */
  function RoundInt(s: Strategy, x: real): int {
    if RoundsUp(s, x) then x.Floor + 1 else x.Floor
  }

  /** Whether the strategy replaces `x` by the integer above it rather than the one at or below it. */
  predicate RoundsUp(s: Strategy, x: real) {
    var frac := x - x.Floor as real;
    match s
    case ToNegativeInfinity => false
    case ToPositiveInfinity => frac > 0.0
    case ToZero => x < 0.0 && frac > 0.0
    case AwayFromZero => x >= 0.0 && frac > 0.0
    case MidpointAwayFromZero => frac > 0.5 || (frac == 0.5 && x >= 0.0)
    case MidpointTowardZero => frac > 0.5 || (frac == 0.5 && x < 0.0)
    case MidpointNearestEven => frac > 0.5 || (frac == 0.5 && x.Floor % 2 == 1)
  }

  /** Rounds to the nearest multiples of `1 / p`: `p` is 10 to the number of decimal places kept. */
  function Round(s: Strategy, p: real, x: real): real
    requires p > 0.0
  {
    RoundInt(s, x * p) as real / p
  }

  lemma RoundAt(rounding: Strategy, p: real, x: real, scaled: real)
    requires p > 0.0 && x * p == scaled
    ensures Round(rounding, p, x) == RoundInt(rounding, scaled) as real / p
  {
    hide RoundInt;
  }

  predicate IsWhole(x: real) {
    x.Floor as real == x
  }

  /** Whether `x` is a multiple of `1 / p`. */
  predicate OnGrid(p: real, x: real) {
    IsWhole(x * p)
  }

  /** Whole-number rounding never leaves the two neighbouring integers. */
  lemma RoundIntNeighbours(s: Strategy, x: real)
    ensures x.Floor <= RoundInt(s, x) <= Ceil(x)
    ensures Abs(RoundInt(s, x) as real - x) < 1.0
    ensures s.IsNearest() ==> Abs(RoundInt(s, x) as real - x) <= 0.5
  {
  }

  lemma RoundIntMonotone(s: Strategy, x: real, y: real)
    requires x <= y
    ensures RoundInt(s, x) <= RoundInt(s, y)
  {
    assert x.Floor <= y.Floor;
  }

  /** Splitting a number before rounding moves the whole-number total by at most one. */
  lemma RoundIntSplit(s: Strategy, x: real, y: real)
    ensures -1 <= RoundInt(s, x + y) - RoundInt(s, x) - RoundInt(s, y) <= 1
  {
    var (f, g) := (x.Floor, y.Floor);
    assert (x + y).Floor == f + g || (x + y).Floor == f + g + 1;
  }

  lemma DivOf(a: real, b: real, p: real)
    requires p > 0.0
    ensures a / p == b <==> a == b * p
  {
  }

  lemma ScaleMonotone(x: real, y: real, p: real)
    requires p > 0.0
    ensures x <= y <==> x * p <= y * p
  {
    if x <= y {
      assert (y - x) * p >= 0.0;
    } else {
      assert (x - y) * p > 0.0;
    }
  }

  lemma Distribute(x: real, y: real, p: real)
    ensures (x + y) * p == x * p + y * p
    ensures (x - y) * p == x * p - y * p
  {
  }

  lemma WholeSum(a: real, b: real)
    requires IsWhole(a) && IsWhole(b)
    ensures IsWhole(a + b) && IsWhole(a - b)
  {
    WholeAt(a + b, a.Floor + b.Floor);
    WholeAt(a - b, a.Floor - b.Floor);
  }

  lemma WholeAt(x: real, n: int)
    requires x == n as real
    ensures IsWhole(x) && x.Floor == n
  {
  }

  lemma ScaleAbs(x: real, d: real, p: real)
    requires p > 0.0
    ensures Abs(x * p) <= d <==> Abs(x) <= d / p
  {
    var u := d / p;
    DivOf(d, u, p);
    ScaleMonotone(x, u, p);
    ScaleMonotone(-x, u, p);
    assert (-x) * p == -(x * p);
  }

  /** The scaled result of rounding is a whole number. */
  lemma Scaled(s: Strategy, p: real, x: real)
    requires p > 0.0
    ensures Round(s, p, x) * p == RoundInt(s, x * p) as real
  {
    DivOf(RoundInt(s, x * p) as real, Round(s, p, x), p);
  }

  /** Rounding lands on the grid. */
  lemma RoundOnGrid(s: Strategy, p: real, x: real)
    requires p > 0.0
    ensures OnGrid(p, Round(s, p, x))
  {
    Scaled(s, p, x);
  }

  /** A number already on the grid is left alone. */
  lemma RoundIdentity(s: Strategy, p: real, x: real)
    requires p > 0.0 && OnGrid(p, x)
    ensures Round(s, p, x) == x
  {
    DivOf(RoundInt(s, x * p) as real, x, p);
  }

  lemma DivMonotone(x: real, y: real, p: real)
    requires p > 0.0 && x <= y
    ensures x / p <= y / p
  {
    var (u, v) := (x / p, y / p);
    DivOf(x, u, p);
    DivOf(y, v, p);
    ScaleMonotone(u, v, p);
  }

  lemma RoundMonotone(s: Strategy, p: real, x: real, y: real)
    requires p > 0.0 && x <= y
    ensures Round(s, p, x) <= Round(s, p, y)
  {
    hide RoundInt;
    ScaleMonotone(x, y, p);
    MonotoneAt(s, p, x * p, y * p);
  }

  lemma MonotoneAt(s: Strategy, p: real, a: real, b: real)
    requires p > 0.0 && a <= b
    ensures RoundInt(s, a) as real / p <= RoundInt(s, b) as real / p
  {
    RoundIntMonotone(s, a, b);
    hide RoundInt;
    DivMonotone(RoundInt(s, a) as real, RoundInt(s, b) as real, p);
  }

  /** Rounding moves a number by less than one unit, and by at most half of one when nearest. */
  lemma RoundError(s: Strategy, p: real, x: real)
    requires p > 0.0
    ensures Abs(Round(s, p, x) - x) < 1.0 / p
    ensures s.IsNearest() ==> Abs(Round(s, p, x) - x) <= 0.5 / p
  {
    var n := RoundInt(s, x * p);
    RoundIntNeighbours(s, x * p);
    hide RoundInt;
    Nearer(x, p, n, 1.0);
    if s.IsNearest() {
      Near(x, p, n, 0.5);
    }
  }

  lemma Nearer(x: real, p: real, n: int, d: real)
    requires p > 0.0
    requires Abs(n as real - x * p) < d
    ensures Abs(n as real / p - x) < d / p
  {
    var r := n as real / p;
    DivOf(n as real, r, p);
    Distribute(r, x, p);
    var u := d / p;
    DivOf(d, u, p);
    ScaleMonotone(u, r - x, p);
    ScaleMonotone(u, x - r, p);
    Distribute(x, r, p);
  }

  /** A multiple of `1 / p` is as near to `x` as its numerator is to `x * p`. */
  lemma Near(x: real, p: real, n: int, d: real)
    requires p > 0.0
    requires Abs(n as real - x * p) <= d
    ensures Abs(n as real / p - x) <= d / p
  {
    var r := n as real / p;
    DivOf(n as real, r, p);
    Distribute(r, x, p);
    ScaleAbs(r - x, d, p);
  }

  /** Splitting an amount before rounding moves the rounded total by at most one unit. */
  lemma RoundSplit(s: Strategy, p: real, x: real, y: real)
    requires p > 0.0
    ensures Abs(Round(s, p, x + y) - Round(s, p, x) - Round(s, p, y)) <= 1.0 / p
  {
    SplitNumerators(s, p, x, y);
    Closeness(p, RoundInt(s, (x + y) * p), RoundInt(s, x * p), RoundInt(s, y * p), 1);
  }

  lemma SplitNumerators(s: Strategy, p: real, x: real, y: real)
    ensures -1 <= RoundInt(s, (x + y) * p) - RoundInt(s, x * p) - RoundInt(s, y * p) <= 1
  {
    var (i, j, k) := (x * p, y * p, (x + y) * p);
    Distribute(x, y, p);
    assert k == i + j;
    RoundIntSplit(s, i, j);
  }

  /** Three multiples of `1 / p` are as close as their numerators say. */
  lemma Closeness(p: real, l: int, m: int, n: int, k: int)
    requires p > 0.0 && -k <= l - m - n <= k
    ensures Abs(l as real / p - m as real / p - n as real / p) <= k as real / p
  {
    var (r, a, b) := (l as real / p, m as real / p, n as real / p);
    DivOf(l as real, r, p);
    DivOf(m as real, a, p);
    DivOf(n as real, b, p);
    Distribute(r, a, p);
    Distribute(r - a, b, p);
    ScaleAbs(r - a - b, k as real, p);
  }

  lemma ZeroOnGrid(p: real)
    ensures OnGrid(p, 0.0)
  {
    WholeAt(0.0 * p, 0);
  }

  lemma OnGridSum(p: real, x: real, y: real)
    requires OnGrid(p, x) && OnGrid(p, y)
    ensures OnGrid(p, x + y) && OnGrid(p, x - y)
  {
    Distribute(x, y, p);
    WholeSum(x * p, y * p);
  }
}
