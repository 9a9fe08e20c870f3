/**
 * Whole numbers of units divided by a common divisor and then rounded: when splitting a number in
 * two, give or take one unit, moves the rounded quotients by at most one unit, and when it does not.
 */
module OneUnit {
  import opened Decimals

  /** A strategy that rounds a number of zero or more down, or up. */
  predicate RoundsDown(rounding: Strategy) {
    rounding.ToNegativeInfinity? || rounding.ToZero?
  }

  /** A strategy that always rounds to one side, wherever zero is. */
  predicate OneSided(rounding: Strategy) {
    rounding.ToNegativeInfinity? || rounding.ToPositiveInfinity?
  }

  /**
   * The whole numbers of units that rounding the parts of an amount, instead of the amount, can be
   * out by: a strategy that rounds to one side is out to the other.
   */
  predicate Apart(rounding: Strategy, a: int, a1: int, a2: int) {
    && -1 <= a - a1 - a2 <= 1
    && (rounding.ToNegativeInfinity? ==> a >= a1 + a2)
    && (rounding.ToPositiveInfinity? ==> a <= a1 + a2)
  }

  /** How far the rounded quotients of the parts are from that of the whole. */
  function Moved(rounding: Strategy, d: real, a: int, a1: int, a2: int): int
    requires d != 0.0
  {
    RoundInt(rounding, a as real / d) - RoundInt(rounding, a1 as real / d) - RoundInt(rounding, a2 as real / d)
  }

  /**
   * The divisors at which one unit is enough for every split: for a nearest strategy those above
   * 2, 2 itself unless ties go to even, and 2 - 1/Q for a whole Q; for a directed strategy whole
   * numbers. A negative divisor turns a one-sided strategy around, and then any from -1 down will do.
   */
  predicate OneUnitSuffices(rounding: Strategy, d: real)
    requires d != 0.0
  {
    var size := Abs(d);
    if rounding.IsNearest() then
      size > 2.0 || (size == 2.0 && !rounding.MidpointNearestEven?)
      || (1.0 <= size < 2.0 && IsWhole(1.0 / (2.0 - size)))
    else if OneSided(rounding) && d < 0.0 then size >= 1.0
    else IsWhole(size)
  }

  // ---------------------------------------------------------------------------------------
  // Products and quotients
  // ---------------------------------------------------------------------------------------

  /** `m` quotients of one unit are `n` whole units and `v` beside. */
  predicate At(g: real, m: int, n: int, v: real) {
    m as real * g == n as real + v
  }

  lemma AtSum(g: real, m: int, n: int, v: real, m': int, n': int, v': real)
    requires At(g, m, n, v) && At(g, m', n', v')
    ensures At(g, m + m', n + n', v + v') && At(g, m - m', n - n', v - v')
  {
    Distribute(m as real, m' as real, g);
  }

  lemma AtTimes(g: real, m: int, n: int, v: real, k: int)
    requires At(g, m, n, v)
    ensures At(g, k * m, k * n, k as real * v)
  {
    var (x, y, z) := (m as real, n as real, k as real);
    assert z * (x * g) == (z * x) * g;
    assert z * (y + v) == z * y + z * v;
    assert (k * m) as real == z * x && (k * n) as real == z * y;
  }

  lemma QuotientAt(d: real, m: int, n: int, v: real)
    requires d != 0.0 && At(1.0 / d, m, n, v)
    ensures m as real / d == n as real + v
  {
    var g := 1.0 / d;
    var x := m as real;
    Reciprocal(x, d, g);
  }

  lemma Reciprocal(x: real, d: real, g: real)
    requires d != 0.0 && g == 1.0 / d
    ensures x / d == x * g
  {
    var q := x / d;
    Undivide(x, d, q);
    Undivide(1.0, d, g);
    assert q * (g * d) == (q * d) * g;
  }

  lemma Undivide(x: real, d: real, q: real)
    requires d != 0.0 && q == x / d
    ensures q * d == x
  {
  }

  /** Going up from `v` in steps of `step` reaches the first place at `goal` or above it. */
  lemma WalkUp(g: real, m: int, n: int, v: real, M: int, N: int, step: real, goal: real)
    returns (k: nat, m': int, n': int, v': real)
    requires At(g, m, n, v) && At(g, M, N, step) && step > 0.0 && v < goal
    ensures m' == m + k * M && At(g, m', n', v') && goal <= v' < goal + step
  {
    var q := (goal - v) / step;
    DivOf(goal - v, q, step);
    ScaleMonotone(q, 0.0, step);
    k := Ceil(q);
    var t := k as real;
    StepsTaken(q, t, step, goal - v, t * step);
    AtTimes(g, M, N, step, k);
    AtSum(g, m, n, v, k * M, k * N, t * step);
    m', n', v' := m + k * M, n + k * N, v + t * step;
  }

  lemma StepsTaken(q: real, t: real, step: real, way: real, taken: real)
    requires step > 0.0 && way == q * step && taken == t * step && q <= t < q + 1.0
    ensures way <= taken < way + step
  {
    ScaleMonotone(q, t, step);
    var gap := q + 1.0 - t;
    Positive(gap, step);
    assert gap * step == way + step - taken;
  }

  lemma Positive(x: real, y: real)
    requires x > 0.0 && y > 0.0
    ensures x * y > 0.0
  {
  }

  /** Going down from `v` reaches the first place below `goal`. */
  lemma WalkDown(g: real, m: int, n: int, v: real, M: int, N: int, step: real, goal: real)
    returns (k: nat, m': int, n': int, v': real)
    requires At(g, m, n, v) && At(g, M, N, -step) && step > 0.0 && v > goal
    ensures m' == m + k * M && At(g, m', n', v') && goal - step < v' <= goal
  {
    MirrorAt(g, m, n, v);
    MirrorAt(g, M, N, -step);
    k, m', n', v' := WalkUp(g, -m, -n, -v, -M, -N, step, -goal);
    MirrorAt(g, m', n', v');
    m', n', v' := -m', -n', -v';
    assert m' == m + k * M by {
      assert k * -M == -(k * M);
    }
  }

  lemma MirrorAt(g: real, m: int, n: int, v: real)
    requires At(g, m, n, v)
    ensures At(g, -m, -n, -v)
  {
    assert (-m) as real * g == -(m as real * g);
  }

  // ---------------------------------------------------------------------------------------
  // Splits that move two units
  // ---------------------------------------------------------------------------------------

  /** Two halves of `m` units each, of `2 * m + e` units, move by two units or more. */
  predicate Fails(rounding: Strategy, d: real, m: int, e: int)
    requires d != 0.0
  {
    Abs(Moved(rounding, d, 2 * m + e, m, m) as real) >= 2.0
  }

  lemma DoubledAt(d: real, m: int, n: int, v: real, e: int)
    requires d != 0.0 && At(1.0 / d, m, n, v) && -1 <= e <= 1
    ensures (2 * m + e) as real / d == (2 * n) as real + (2.0 * v + e as real * (1.0 / d))
    ensures m as real / d == n as real + v
  {
    var g := 1.0 / d;
    AtTimes(g, m, n, v, 2);
    assert At(g, e, 0, e as real * g);
    AtSum(g, 2 * m, 2 * n, 2.0 * v, e, 0, e as real * g);
    QuotientAt(d, m, n, v);
    QuotientAt(d, 2 * m + e, 2 * n, 2.0 * v + e as real * g);
  }

  lemma FloorPair(d: real, m: int, n: int, v: real)
    requires d > 0.0 && At(1.0 / d, m, n, v) && 0.0 <= v < 1.0 && 2.0 * v + 1.0 / d >= 2.0
    ensures ((2 * m + 1) as real / d).Floor - 2 * (m as real / d).Floor >= 2
  {
    DoubledAt(d, m, n, v, 1);
    FloorsApart(m as real / d, (2 * m + 1) as real / d, n, v, 1.0 / d);
  }

  lemma FloorsApart(x: real, y: real, n: int, v: real, g: real)
    requires x == n as real + v && y == (2 * n) as real + (2.0 * v + g)
    requires 0.0 <= v < 1.0 && 2.0 * v + g >= 2.0
    ensures y.Floor - 2 * x.Floor >= 2
  {
    FloorShift(n, v);
    FloorShift(2 * n, 2.0 * v + g);
  }

  lemma FloorShift(n: int, v: real)
    ensures (n as real + v).Floor == n + v.Floor
  {
  }

  lemma CeilPair(d: real, m: int, n: int, v: real)
    requires d > 0.0 && At(1.0 / d, m, n, v) && 0.0 < v <= 1.0 && 2.0 * v <= 1.0 / d
    ensures Ceil((2 * m - 1) as real / d) - 2 * Ceil(m as real / d) <= -2
  {
    DoubledAt(d, m, n, v, -1);
    CeilsApart(m as real / d, (2 * m - 1) as real / d, n, v, 1.0 / d);
  }

  lemma CeilsApart(x: real, y: real, n: int, v: real, g: real)
    requires x == n as real + v && y == (2 * n) as real + (2.0 * v - g)
    requires 0.0 < v <= 1.0 && 2.0 * v <= g
    ensures Ceil(y) - 2 * Ceil(x) <= -2
  {
    CeilBetween(x, n + 1);
    CeilBelow(y, 2 * n);
  }

  lemma CeilBetween(x: real, n: int)
    requires n as real - 1.0 < x <= n as real
    ensures Ceil(x) == n
  {
  }

  lemma CeilBelow(x: real, n: int)
    requires x <= n as real
    ensures Ceil(x) <= n
  {
  }

  /** A quotient of one unit that is less than a unit, and how far enough of them pass a unit. */
  lemma PassOne(d: real) returns (M: int, over: real)
    requires d > 1.0 && !IsWhole(d)
    ensures M >= 2 && At(1.0 / d, M, 1, over) && 0.0 < over < 1.0 / d
  {
    var g := 1.0 / d;
    M := d.Floor + 1;
    DivOf(1.0, g, d);
    over := M as real * g - 1.0;
    ScaleMonotone(d, M as real, g);
    ScaleMonotone(M as real, d, g);
    ScaleMonotone(d, (M - 1) as real, g);
    ScaleMonotone((M - 1) as real, d, g);
    Distribute(M as real, 1.0, g);
    assert d * g == 1.0 && 1.0 * g == g;
  }

  lemma One(g: real)
    ensures At(g, 1, 0, g) && At(g, 0, 0, 0.0)
  {
  }

  /** Rounding down: a number of zero or more. */
  lemma FloorFails(d: real) returns (m: int)
    requires d > 0.0 && !IsWhole(d)
    ensures m >= 0 && ((2 * m + 1) as real / d).Floor - 2 * (m as real / d).Floor >= 2
  {
    var g := 1.0 / d;
    var n, v;
    One(g);
    DivOf(1.0, g, d);
    if d > 1.0 {
      var M, over := PassOne(d);
      AtSum(g, M, 1, over, 1, 0, g);
      if over >= g / 2.0 {
        m, n, v := M - 1, 0, 1.0 + over - g;
      } else {
        var k;
        k, m, n, v := WalkUp(g, M - 1, 0, 1.0 + over - g, M, 1, over, 1.0 - g / 2.0);
      }
    } else {
      AboveOne(d);
      if g >= 2.0 {
        m, n, v := 0, 0, 0.0;
      } else {
        var k;
        assert At(g, 1, 1, g - 1.0);
        k, m, n, v := WalkUp(g, 0, 0, 0.0, 1, 1, g - 1.0, 1.0 - g / 2.0);
      }
    }
    FloorPair(d, m, n, v);
  }

  lemma AboveOne(d: real)
    requires 0.0 < d <= 1.0 && !IsWhole(d)
    ensures 1.0 / d > 1.0
  {
    assert d != 1.0;
  }

  /** Rounding up: a number of one or more. */
  lemma CeilFails(d: real) returns (m: int)
    requires d > 0.0 && !IsWhole(d)
    ensures m >= 1 && Ceil((2 * m - 1) as real / d) - 2 * Ceil(m as real / d) <= -2
  {
    var g := 1.0 / d;
    var n, v;
    One(g);
    if d > 1.0 {
      var M, over := PassOne(d);
      if over <= g / 2.0 {
        m, n, v := M, 1, over;
      } else {
        AtSum(g, M, 1, over, 1, 0, g);
        var k;
        k, m, n, v := WalkDown(g, M, 1, over, M - 1, 1, g - over, g / 2.0);
      }
    } else {
      AboveOne(d);
      m, n := 1, Ceil(g) - 1;
      v := g - n as real;
    }
    CeilPair(d, m, n, v);
  }

  // Nearest strategies

  /** A quotient near enough to half a unit fails one way or the other. */
  lemma NearHalf(rounding: Strategy, d: real, m: int, n: int, v: real) returns (e: int)
    requires rounding.IsNearest() && 1.0 < d < 2.0 && At(1.0 / d, m, n, v) && m >= 1
    requires Abs(v - 0.5) < (1.0 / d - 0.5) / 2.0
    ensures (e == 1 || e == -1) && Fails(rounding, d, m, e)
  {
    var g := 1.0 / d;
    DivOf(1.0, g, d);
    HalfToOne(d, g);
    var x := m as real / d;
    e := if RoundInt(rounding, x) == n then 1 else -1;
    DoubledAt(d, m, n, v, e);
    HalvesApart(rounding, x, (2 * m + e) as real / d, n, v, g, e);
  }

  lemma HalfToOne(d: real, g: real)
    requires 1.0 < d < 2.0 && g * d == 1.0
    ensures 0.5 < g < 1.0
  {
    ScaleMonotone(1.0, g, d);
    ScaleMonotone(g, 0.5, d);
  }

  lemma HalvesApart(rounding: Strategy, x: real, y: real, n: int, v: real, g: real, e: int)
    requires rounding.IsNearest() && 0.5 < g < 1.0 && Abs(v - 0.5) < (g - 0.5) / 2.0
    requires x == n as real + v && e == if RoundInt(rounding, x) == n then 1 else -1
    requires y == (2 * n) as real + (2.0 * v + e as real * g)
    ensures RoundInt(rounding, y) - 2 * RoundInt(rounding, x) == 2 * e
  {
    assert x.Floor == n;
    if e == 1 {
      assert v <= 0.5 && 1.5 < 2.0 * v + g < 2.0;
      assert y.Floor == 2 * n + 1;
    } else {
      assert v >= 0.5 && 0.0 < 2.0 * v - g < 0.5;
      assert y.Floor == 2 * n;
    }
  }

  /** An even number of quotients that come to whole units, give or take less than one of them is above a half. */
  lemma EvenTurn(g: real) returns (k: int, over: real)
    requires 0.5 < g < 1.0
    ensures k >= 1 && At(g, 2 * k, k + 1, over) && -(g - 0.5) < over <= g - 0.5
  {
    var t := g - 0.5;
    var step := 2.0 * t;
    var q := (1.0 + t) / step;
    DivOf(1.0 + t, q, step);
    k := q.Floor;
    ScaleMonotone(k as real, q, step);
    ScaleMonotone(k as real + 1.0, q, step);
    Distribute(k as real, 1.0, step);
    ScaleMonotone(k as real, 0.0, step);
    assert At(g, 2, 1, step);
    AtTimes(g, 2, 1, step, k);
    over := k as real * step - 1.0;
  }

  /** Between 1 and 2, some number of quotients comes near enough to half a unit, but for 2 - 1/Q. */
  lemma FindNearHalf(d: real) returns (m: int, n: int, v: real)
    requires 1.0 < d < 2.0 && !IsWhole(1.0 / (2.0 - d))
    ensures m >= 1 && At(1.0 / d, m, n, v) && Abs(v - 0.5) < (1.0 / d - 0.5) / 2.0
  {
    var g := 1.0 / d;
    DivOf(1.0, g, d);
    HalfToOne(d, g);
    var t := g - 0.5;
    var k, over := EvenTurn(g);
    One(g);
    AtSum(g, 2 * k, k + 1, over, 1, 0, g);
    if over > t / 2.0 {
      m, n, v := 2 * k - 1, k, over - g + 1.0;
    } else if over < -t / 2.0 {
      m, n, v := 2 * k + 1, k + 1, over + g;
    } else if over > 0.0 {
      m, n, v := TurnUp(g, k, over);
    } else if over < 0.0 {
      m, n, v := TurnDown(g, k, over);
    } else {
      if k % 2 == 1 {
        ExactTurn(d, g, k);
        assert false;
      }
      var h := k / 2;
      assert At(g, k, h, 0.5);
      m, n, v := k, h, 0.5;
    }
  }

  /** Turns that come out a little over lead from below a half to near it. */
  lemma TurnUp(g: real, k: int, over: real) returns (m: int, n: int, v: real)
    requires 0.5 < g < 1.0 && k >= 1 && At(g, 2 * k, k + 1, over) && 0.0 < over <= (g - 0.5) / 2.0
    ensures m >= 1 && At(g, m, n, v) && Abs(v - 0.5) < (g - 0.5) / 2.0
  {
    One(g);
    AtSum(g, 2 * k, k + 1, over, 1, 0, g);
    var (t, start) := (g - 0.5, over - g + 1.0);
    assert At(g, 2 * k - 1, k, start);
    var j;
    j, m, n, v := WalkUp(g, 2 * k - 1, k, start, 2 * k, k + 1, over, 0.5 - t / 4.0);
    WalkedOn(2 * k - 1, j, 2 * k, m);
  }

  /** Turns that come out a little under lead from above a half to near it. */
  lemma TurnDown(g: real, k: int, over: real) returns (m: int, n: int, v: real)
    requires 0.5 < g < 1.0 && k >= 1 && At(g, 2 * k, k + 1, over) && -(g - 0.5) / 2.0 <= over < 0.0
    ensures m >= 1 && At(g, m, n, v) && Abs(v - 0.5) < (g - 0.5) / 2.0
  {
    One(g);
    AtSum(g, 2 * k, k + 1, over, 1, 0, g);
    var t := g - 0.5;
    var j;
    j, m, n, v := WalkDown(g, 2 * k + 1, k + 1, over + g, 2 * k, k + 1, -over, 0.5 + t / 4.0);
    WalkedOn(2 * k + 1, j, 2 * k, m);
  }

  lemma WalkedOn(from: int, j: nat, M: int, m: int)
    requires from >= 1 && M >= 0 && m == from + j * M
    ensures m >= 1
  {
  }

  lemma DoubleProduct(x: real, d: real, y: real)
    requires y == 2.0 * x
    ensures y * d == 2.0 * (x * d)
  {
  }

  /** An odd half-turn that comes out exactly is a divisor of the form 2 - 1/Q. */
  lemma ExactTurn(d: real, g: real, k: int)
    requires 1.0 < d < 2.0 && g == 1.0 / d && k >= 1 && k % 2 == 1 && At(g, 2 * k, k + 1, 0.0)
    ensures IsWhole(1.0 / (2.0 - d))
  {
    var q := (k + 1) / 2;
    DivOf(1.0, g, d);
    QuotientAt(d, 2 * k, k + 1, 0.0);
    Undivide((2 * k) as real, d, (k + 1) as real);
    var gap := 2.0 - d;
    DoubleProduct(q as real, d, (k + 1) as real);
    assert q as real * gap == q as real * 2.0 - q as real * d;
    DivOf(1.0, q as real, gap);
    WholeAt(q as real, q);
  }

  /** Below 1 a nearest strategy always fails. */
  lemma NearestFailsBelowOne(rounding: Strategy, d: real) returns (m: int)
    requires rounding.IsNearest() && 0.0 < d < 1.0
    ensures m >= 0 && Fails(rounding, d, m, 1)
  {
    hide RoundInt;
    var g := 1.0 / d;
    DivOf(1.0, g, d);
    AboveOne(d);
    One(g);
    var n, v;
    if g > 1.5 || (g == 1.5 && !rounding.MidpointTowardZero?) {
      m, n, v := 0, 0, 0.0;
    } else if g == 1.5 {
      m, n, v := 1, 1, 0.5;
    } else {
      var c := g - 1.0;
      var k;
      assert At(g, 1, 1, c);
      k, m, n, v := WalkUp(g, 0, 0, 0.0, 1, 1, c, 1.5 * (0.25 - c / 2.0));
    }
    DoubledAt(d, m, n, v, 1);
    StepsOver(rounding, m as real / d, (2 * m + 1) as real / d, n, v, g);
  }

  lemma StepsOver(rounding: Strategy, x: real, y: real, n: int, v: real, g: real)
    requires rounding.IsNearest() && x == n as real + v && y == (2 * n) as real + (2.0 * v + g)
    requires || (v == 0.0 && n == 0 && (g > 1.5 || (g == 1.5 && !rounding.MidpointTowardZero?)))
             || (v == 0.5 && n == 1 && g == 1.5 && rounding.MidpointTowardZero?)
             || (0.0 <= v < 0.5 && 1.5 < 2.0 * v + g < 2.5)
    ensures RoundInt(rounding, y) - 2 * RoundInt(rounding, x) >= 2
  {
    FloorShift(n, v);
    FloorShift(2 * n, 2.0 * v + g);
  }

  lemma QuotientSign(a: int, d: real)
    requires d > 0.0 && a >= 0
    ensures a as real / d >= 0.0
  {
    var q := a as real / d;
    DivOf(a as real, q, d);
    ScaleMonotone(0.0, q, d);
    assert 0.0 * d == 0.0;
  }

  lemma TiesToEvenFail()
    ensures Fails(MidpointNearestEven, 2.0, 1, 1)
  {
    assert 3.0 / 2.0 == 1.5 && 1.0 / 2.0 == 0.5;
    assert RoundInt(MidpointNearestEven, 1.5) == 2 && RoundInt(MidpointNearestEven, 0.5) == 0;
  }

  lemma OneIsExact()
    ensures IsWhole(1.0 / (2.0 - 1.0))
  {
    WholeAt(1.0 / (2.0 - 1.0), 1);
  }

  lemma PositiveNearestFails(rounding: Strategy, d: real) returns (m: int, e: int)
    requires rounding.IsNearest() && d > 0.0 && !OneUnitSuffices(rounding, d)
    ensures m >= 0 && (e == 1 || (e == -1 && m >= 1)) && Fails(rounding, d, m, e)
  {
    hide Fails, IsWhole;
    OneIsExact();
    if d < 1.0 {
      m := NearestFailsBelowOne(rounding, d);
      e := 1;
    } else if d == 2.0 {
      m, e := 1, 1;
      TiesToEvenFail();
    } else {
      var n, v;
      m, n, v := FindNearHalf(d);
      e := NearHalf(rounding, d, m, n, v);
    }
  }

  lemma PositiveDirectedFails(rounding: Strategy, d: real) returns (m: int, e: int)
    requires !rounding.IsNearest() && d > 0.0 && !IsWhole(d)
    ensures m >= 0 && (e == 1 || (e == -1 && m >= 1)) && Fails(rounding, d, m, e)
    ensures e == if RoundsDown(rounding) then 1 else -1
  {
    hide RoundInt;
    if RoundsDown(rounding) {
      m := FloorFails(d);
      e := 1;
      QuotientSign(m, d);
      QuotientSign(2 * m + 1, d);
      DownIsFloor(rounding, m as real / d, (2 * m + 1) as real / d);
    } else {
      m := CeilFails(d);
      e := -1;
      QuotientSign(m, d);
      QuotientSign(2 * m - 1, d);
      UpIsCeil(rounding, m as real / d, (2 * m - 1) as real / d);
    }
  }

  /** For a positive divisor at which one unit does not suffice, halves that move two. */
  lemma PositiveFails(rounding: Strategy, d: real) returns (m: int, e: int)
    requires d > 0.0 && !OneUnitSuffices(rounding, d)
    ensures m >= 0 && (e == 1 || (e == -1 && m >= 1)) && Fails(rounding, d, m, e)
    ensures !rounding.IsNearest() ==> e == if RoundsDown(rounding) then 1 else -1
  {
    hide Fails;
    if rounding.IsNearest() {
      m, e := PositiveNearestFails(rounding, d);
    } else {
      m, e := PositiveDirectedFails(rounding, d);
    }
  }

  lemma DownIsFloor(rounding: Strategy, x: real, y: real)
    requires RoundsDown(rounding) && x >= 0.0 && y >= 0.0
    ensures RoundInt(rounding, x) == x.Floor && RoundInt(rounding, y) == y.Floor
  {
  }

  lemma UpIsCeil(rounding: Strategy, x: real, y: real)
    requires !rounding.IsNearest() && !RoundsDown(rounding) && x >= 0.0 && y >= 0.0
    ensures RoundInt(rounding, x) == Ceil(x) && RoundInt(rounding, y) == Ceil(y)
  {
  }

  /** A strategy that treats both signs alike. */
  lemma RoundIntMirrored(rounding: Strategy, x: real)
    requires !OneSided(rounding)
    ensures RoundInt(rounding, -x) == -RoundInt(rounding, x)
  {
    var f := x.Floor;
    if f as real != x {
      assert (-x).Floor == -f - 1;
    } else {
      assert (-x).Floor == -f;
    }
  }

  lemma MovedMirrored(rounding: Strategy, d: real, a: int, a1: int, a2: int)
    requires d != 0.0 && !OneSided(rounding)
    ensures Moved(rounding, d, a, a1, a2) == -Moved(rounding, -d, a, a1, a2)
  {
    NegatedQuotient(a as real, d);
    NegatedQuotient(a1 as real, d);
    NegatedQuotient(a2 as real, d);
    RoundIntMirrored(rounding, a as real / -d);
    RoundIntMirrored(rounding, a1 as real / -d);
    RoundIntMirrored(rounding, a2 as real / -d);
    hide RoundInt;
  }

  lemma NegatedQuotient(x: real, d: real)
    requires d != 0.0
    ensures x / d == -(x / -d)
  {
  }

  /**
   * Wherever one unit does not suffice there is an amount of `m` units that, doubled and out by the
   * one unit rounding allows, moves two.
   */
  lemma OneUnitFails(rounding: Strategy, d: real) returns (m: int, e: int)
    requires d != 0.0 && !OneUnitSuffices(rounding, d)
    ensures m >= 0 && (e == 1 || e == -1) && Fails(rounding, d, m, e)
    ensures rounding.IsNearest() && e == -1 ==> m >= 1
    ensures rounding.AwayFromZero? ==> m >= 1
    ensures !rounding.IsNearest() ==> e == if RoundsDown(rounding) then 1 else -1
  {
    hide RoundInt, IsWhole;
    if d > 0.0 {
      m, e := PositiveFails(rounding, d);
    } else if OneSided(rounding) {
      m, e := 0, if RoundsDown(rounding) then 1 else -1;
      OneSidedFails(rounding, d);
    } else {
      m, e := PositiveFails(rounding, -d);
      MovedMirrored(rounding, d, 2 * m + e, m, m);
    }
  }

  lemma OneSidedFails(rounding: Strategy, d: real)
    requires OneSided(rounding) && -1.0 < d < 0.0
    ensures Fails(rounding, d, 0, if RoundsDown(rounding) then 1 else -1)
  {
    BelowMinusOne(d);
    var g := 1.0 / d;
    assert 0.0 / d == 0.0;
    assert (-1.0) / d == -g;
  }

  lemma BelowMinusOne(d: real)
    requires -1.0 < d < 0.0
    ensures 1.0 / d < -1.0
  {
    AboveOneAt(-d);
    NegatedQuotient(1.0, d);
  }

  lemma AboveOneAt(d: real)
    requires 0.0 < d < 1.0
    ensures 1.0 / d > 1.0
  {
  }

  // ---------------------------------------------------------------------------------------
  // How far a split can move at all
  // ---------------------------------------------------------------------------------------

  /**
   * How many units dividing by `divisor` before rounding can move an amount that is split: half a
   * unit for each rounding to nearest, or one unit for each directed rounding, beside the quotient
   * of the one unit the stated amounts themselves may differ by.
   */
  function DividedUnits(rounding: Strategy, divisor: real): int
    requires divisor != 0.0
  {
    var gap := 1.0 / Abs(divisor);
    if rounding.IsNearest() then (gap + 1.5).Floor else Ceil(gap) + 1
  }

  /** Quotients of whole numbers that differ by at most one, and their common sign. */
  lemma QuotientsNear(a: int, b: int, d: real)
    requires d != 0.0 && -1 <= a - b <= 1
    ensures Abs(a as real / d - b as real / d) <= 1.0 / Abs(d)
    ensures var (x, y) := (a as real / d, b as real / d);
            (x >= 0.0 && y >= 0.0) || (x <= 0.0 && y <= 0.0)
  {
    var (x, y, u) := (a as real / d, b as real / d, 1.0 / Abs(d));
    SignedDivOf(a as real, x, d);
    SignedDivOf(b as real, y, d);
    DivOf(1.0, u, Abs(d));
    Distribute(x, y, d);
    if d > 0.0 {
      ScaleAbs(x - y, 1.0, d);
      SignOfQuotient(a, x, d);
      SignOfQuotient(b, y, d);
    } else {
      assert (x - y) * -d == -((x - y) * d);
      ScaleAbs(x - y, 1.0, -d);
      assert (-x) * -d == x * d && (-y) * -d == y * d;
      SignOfQuotient(a, -x, -d);
      SignOfQuotient(b, -y, -d);
    }
  }

  lemma SignedDivOf(a: real, x: real, d: real)
    requires d != 0.0 && x == a / d
    ensures a == x * d
  {
  }

  lemma SignOfQuotient(a: int, x: real, d: real)
    requires d > 0.0 && a as real == x * d
    ensures a >= 0 <==> x >= 0.0
    ensures a <= 0 <==> x <= 0.0
  {
    ScaleMonotone(0.0, x, d);
    ScaleMonotone(x, 0.0, d);
    assert 0.0 * d == 0.0;
  }

  /** On one side of zero a directed rounding is a floor or a ceiling. */
  lemma DirectedNear(rounding: Strategy, x: real, y: real, gap: real)
    requires !rounding.IsNearest() && Abs(x - y) <= gap
    requires (x >= 0.0 && y >= 0.0) || (x <= 0.0 && y <= 0.0)
    ensures -Ceil(gap) <= RoundInt(rounding, x) - RoundInt(rounding, y) <= Ceil(gap)
  {
    var down := forall z: real :: z == x || z == y ==> RoundInt(rounding, z) == z.Floor;
    if !down {
      assert forall z: real :: z == x || z == y ==> RoundInt(rounding, z) == Ceil(z);
    }
  }

  /** Dividing whole numbers of units before rounding, when the first is within one of the sum of the others. */
  lemma DividedNumerators(rounding: Strategy, a: int, a1: int, a2: int, d: real)
    requires d != 0.0 && -1 <= a - a1 - a2 <= 1
    ensures -DividedUnits(rounding, d) <= Moved(rounding, d, a, a1, a2) <= DividedUnits(rounding, d)
  {
    var (x, x1, x2, sum) := (a as real / d, a1 as real / d, a2 as real / d, (a1 + a2) as real / d);
    QuotientsNear(a, a1 + a2, d);
    QuotientAdds(a1, a2, d);
    var gap := 1.0 / Abs(d);
    if rounding.IsNearest() {
      NearestSplit(rounding, x, x1, x2, gap);
    } else {
      DirectedNear(rounding, x, sum, gap);
      RoundIntSplit(rounding, x1, x2);
    }
  }

  lemma QuotientAdds(a: int, b: int, d: real)
    requires d != 0.0
    ensures (a + b) as real / d == a as real / d + b as real / d
  {
  }

  lemma NearestSplit(rounding: Strategy, x: real, x1: real, x2: real, gap: real)
    requires rounding.IsNearest() && Abs(x - (x1 + x2)) <= gap
    ensures var n := RoundInt(rounding, x) - RoundInt(rounding, x1) - RoundInt(rounding, x2);
            -(gap + 1.5).Floor <= n <= (gap + 1.5).Floor
  {
    RoundIntNeighbours(rounding, x);
    RoundIntNeighbours(rounding, x1);
    RoundIntNeighbours(rounding, x2);
    hide RoundInt;
  }

  // ---------------------------------------------------------------------------------------
  // Splits that move one unit at most
  // ---------------------------------------------------------------------------------------

  lemma SumOfQuotients(a: int, a1: int, a2: int, d: real)
    requires d != 0.0
    ensures a as real / d == a1 as real / d + a2 as real / d + (a - a1 - a2) as real / d
  {
    QuotientAdds(a1, a2, d);
    QuotientAdds(a1 + a2, a - a1 - a2, d);
  }

  /** A multiple of `P` less than two of them is at most one. */
  lemma LessThanTwo(k: int, P: int)
    requires P >= 1 && -2 * P < k * P < 2 * P
    ensures -1 <= k <= 1
  {
  }

  // Nearest strategies

  lemma AboveTwo(rounding: Strategy, d: real, a: int, a1: int, a2: int)
    requires rounding.IsNearest() && d > 2.0 && -1 <= a - a1 - a2 <= 1
    ensures -1 <= Moved(rounding, d, a, a1, a2) <= 1
  {
    hide Moved;
    DividedNumerators(rounding, a, a1, a2, d);
    var gap := 1.0 / d;
    DivOf(1.0, gap, d);
    ScaleMonotone(0.5, gap, d);
  }

  lemma Halved(rounding: Strategy, a: int) returns (n: int)
    requires rounding.MidpointAwayFromZero? || rounding.MidpointTowardZero?
    ensures n == RoundInt(rounding, a as real / 2.0)
    ensures a % 2 == 0 ==> 2 * n == a
    ensures a % 2 == 1 ==> 2 * n == if (a > 0) == rounding.MidpointAwayFromZero? then a + 1 else a - 1
  {
    var h := a / 2;
    var x := a as real / 2.0;
    assert x == h as real + (a % 2) as real / 2.0;
    assert x.Floor == h;
    n := RoundInt(rounding, x);
  }

  lemma AtTwo(rounding: Strategy, a: int, a1: int, a2: int)
    requires rounding.MidpointAwayFromZero? || rounding.MidpointTowardZero?
    requires -1 <= a - a1 - a2 <= 1
    ensures -1 <= Moved(rounding, 2.0, a, a1, a2) <= 1
  {
    hide RoundInt;
    var n := Halved(rounding, a);
    var n1 := Halved(rounding, a1);
    var n2 := Halved(rounding, a2);
  }

  /** Multiples of Q over 2Q - 1 have no ties: what is rounded off is below half of it. */
  lemma NoTies(rounding: Strategy, d: real, Q: int, a: int) returns (n: int, r: int)
    requires rounding.IsNearest() && Q >= 1 && d > 0.0 && Q as real * d == (2 * Q - 1) as real
    ensures n == RoundInt(rounding, a as real / d) && a * Q == n * (2 * Q - 1) + r && -Q < r < Q
  {
    var x := a as real / d;
    n := RoundInt(rounding, x);
    RoundIntNeighbours(rounding, x);
    hide RoundInt;
    DivOf(a as real, x, d);
    ScaledByQ(x, d, Q as real, a as real, (2 * Q - 1) as real);
    r := a * Q - n * (2 * Q - 1);
    BelowHalf(x, n, a, Q, r);
  }

  lemma BelowHalf(x: real, n: int, a: int, Q: int, r: int)
    requires Q >= 1 && Abs(n as real - x) <= 0.5 && r == a * Q - n * (2 * Q - 1)
    requires x * (2 * Q - 1) as real == a as real * Q as real
    ensures -Q < r < Q
  {
    var (P, w) := (2 * Q - 1, x - n as real);
    var (p, y) := (P as real, w * P as real);
    CastedRemainder(a, Q, n, P);
    Distribute(x, n as real, p);
    AtMostScale(w, p, y);
    HalfOfOdd(r, Q, P, y, p);
  }

  lemma AtMostScale(w: real, p: real, y: real)
    requires p > 0.0 && Abs(w) <= 0.5 && y == w * p
    ensures Abs(y) <= p / 2.0
  {
    var (below, above) := (0.5 - w, 0.5 + w);
    NotNegative(below, p);
    NotNegative(above, p);
    assert below * p == p / 2.0 - y && above * p == p / 2.0 + y;
  }

  lemma NotNegative(x: real, y: real)
    requires x >= 0.0 && y >= 0.0
    ensures x * y >= 0.0
  {
  }

  lemma HalfOfOdd(r: int, Q: int, P: int, y: real, p: real)
    requires r as real == y && P as real == p && P == 2 * Q - 1 && Abs(y) <= p / 2.0
    ensures -Q < r < Q
  {
  }

  lemma WithinScale(w: real, bound: real, p: real, y: real)
    requires p > 0.0 && -bound < w < bound && y == w * p
    ensures -(bound * p) < y < bound * p
  {
    ScaleMonotone(bound, w, p);
    ScaleMonotone(w, -bound, p);
    assert -bound * p == -(bound * p);
  }

  lemma CastedRemainder(a: int, q: int, n: int, p: int)
    ensures (a * q - n * p) as real == a as real * q as real - n as real * p as real
  {
  }

  lemma ScaledByQ(x: real, d: real, q: real, a: real, p: real)
    requires a == x * d && q * d == p
    ensures x * p == a * q
  {
    assert x * (q * d) == (x * d) * q;
  }

  lemma TwoMinusOneOverQ(rounding: Strategy, d: real, Q: int, a: int, a1: int, a2: int)
    requires rounding.IsNearest() && Q >= 1 && d > 0.0 && Q as real * d == (2 * Q - 1) as real
    requires -1 <= a - a1 - a2 <= 1
    ensures -1 <= Moved(rounding, d, a, a1, a2) <= 1
  {
    hide RoundInt;
    var n, r := NoTies(rounding, d, Q, a);
    var n1, r1 := NoTies(rounding, d, Q, a1);
    var n2, r2 := NoTies(rounding, d, Q, a2);
    var e := a - a1 - a2;
    DifferenceTimes(a, a1, a2, Q);
    AtMostOneTimes(e, Q);
    FewMultiples(n, n1, n2, 2 * Q - 1, a * Q - r, a1 * Q - r1, a2 * Q - r2);
  }

  lemma AtMostOneTimes(e: int, Q: int)
    requires -1 <= e <= 1 && Q >= 1
    ensures -Q <= e * Q <= Q
  {
  }

  lemma QOfGap(d: real) returns (Q: int)
    requires 1.0 <= d < 2.0 && IsWhole(1.0 / (2.0 - d))
    ensures Q >= 1 && Q as real * d == (2 * Q - 1) as real
  {
    var gap := 2.0 - d;
    var q := 1.0 / gap;
    DivOf(1.0, q, gap);
    Q := q.Floor;
    ScaleMonotone(q, 0.0, gap);
    assert q * gap == q * 2.0 - q * d;
  }

  lemma NearestEnough(rounding: Strategy, d: real, a: int, a1: int, a2: int)
    requires rounding.IsNearest() && d > 0.0 && OneUnitSuffices(rounding, d) && -1 <= a - a1 - a2 <= 1
    ensures -1 <= Moved(rounding, d, a, a1, a2) <= 1
  {
    hide Moved, IsWhole;
    if d > 2.0 {
      AboveTwo(rounding, d, a, a1, a2);
    } else if d == 2.0 {
      AtTwo(rounding, a, a1, a2);
    } else {
      var Q := QOfGap(d);
      TwoMinusOneOverQ(rounding, d, Q, a, a1, a2);
    }
  }

  // Directed strategies

  /** What a directed strategy rounds off: less than the divisor, to the side the strategy and the sign decide. */
  lemma RoundedOff(rounding: Strategy, d: real, P: int, a: int) returns (n: int, r: int)
    requires !rounding.IsNearest() && P >= 1 && d == P as real
    ensures n == RoundInt(rounding, a as real / d) && a == n * P + r && -P < r < P
    ensures rounding.ToNegativeInfinity? ==> r >= 0
    ensures rounding.ToPositiveInfinity? ==> r <= 0
    ensures rounding.ToZero? ==> if a >= 0 then r >= 0 else r <= 0
    ensures rounding.AwayFromZero? ==> if a >= 0 then r <= 0 else r >= 0
    ensures a == 0 ==> r == 0
  {
    var x := a as real / d;
    n := RoundInt(rounding, x);
    r := a - n * P;
    if a == 0 {
      assert x == 0.0 && n == 0;
    }
    DivOf(a as real, x, d);
    SignOfQuotient(a, x, d);
    SideOf(rounding, x, a);
    RoundIntNeighbours(rounding, x);
    hide RoundInt;
    LessThanDivisor(x, n, a, P, r);
  }

  lemma SideOf(rounding: Strategy, x: real, a: int)
    requires !rounding.IsNearest() && (a >= 0 <==> x >= 0.0)
    ensures var w := x - RoundInt(rounding, x) as real;
            && (rounding.ToNegativeInfinity? ==> w >= 0.0)
            && (rounding.ToPositiveInfinity? ==> w <= 0.0)
            && (rounding.ToZero? ==> if a >= 0 then w >= 0.0 else w <= 0.0)
            && (rounding.AwayFromZero? ==> if a >= 0 then w <= 0.0 else w >= 0.0)
  {
  }

  lemma LessThanDivisor(x: real, n: int, a: int, P: int, r: int)
    requires P >= 1 && a as real == x * P as real && r == a - n * P && Abs(n as real - x) < 1.0
    ensures -P < r < P
    ensures x >= n as real ==> r >= 0
    ensures x <= n as real ==> r <= 0
  {
    var (w, p) := (x - n as real, P as real);
    var y := w * p;
    CastedProduct(n, P);
    Distribute(x, n as real, p);
    SideOfZero(w, p, y);
    WithinScale(w, 1.0, p, y);
    Uncast(r, P, y, p);
  }

  lemma SideOfZero(w: real, p: real, y: real)
    requires p > 0.0 && y == w * p
    ensures w >= 0.0 ==> y >= 0.0
    ensures w <= 0.0 ==> y <= 0.0
  {
    assert w <= 0.0 ==> (-w) * p >= 0.0;
  }

  lemma Uncast(r: int, P: int, y: real, p: real)
    requires r as real == y && P as real == p && -p < y < p
    ensures -P < r < P
    ensures y >= 0.0 ==> r >= 0
    ensures y <= 0.0 ==> r <= 0
  {
  }

  lemma CastedProduct(n: int, p: int)
    ensures (n * p) as real == n as real * p as real
  {
  }

  lemma WholeEnough(rounding: Strategy, d: real, a: int, a1: int, a2: int)
    requires !rounding.IsNearest() && d > 0.0 && IsWhole(d) && -1 <= a - a1 - a2 <= 1
    ensures -1 <= Moved(rounding, d, a, a1, a2) <= 1
  {
    hide RoundInt;
    var P := d.Floor;
    var n, r := RoundedOff(rounding, d, P, a);
    var n1, r1 := RoundedOff(rounding, d, P, a1);
    var n2, r2 := RoundedOff(rounding, d, P, a2);
    RemaindersAgree(rounding, a, a1, a2, r, r1, r2, P);
    FewMultiples(n, n1, n2, P, a - r, a1 - r1, a2 - r2);
  }

  lemma FewMultiples(n: int, n1: int, n2: int, P: int, m: int, m1: int, m2: int)
    requires P >= 1 && m == n * P && m1 == n1 * P && m2 == n2 * P && -2 * P < m - m1 - m2 < 2 * P
    ensures -1 <= n - n1 - n2 <= 1
  {
    DifferenceTimes(n, n1, n2, P);
    LessThanTwo(n - n1 - n2, P);
  }

  lemma DifferenceTimes(n: int, n1: int, n2: int, P: int)
    ensures (n - n1 - n2) * P == n * P - n1 * P - n2 * P
  {
  }

  lemma RemaindersAgree(rounding: Strategy, a: int, a1: int, a2: int, r: int, r1: int, r2: int, P: int)
    requires !rounding.IsNearest() && -1 <= a - a1 - a2 <= 1 && -P < r < P && -P < r1 < P && -P < r2 < P
    requires rounding.ToNegativeInfinity? ==> r >= 0 && r1 >= 0 && r2 >= 0
    requires rounding.ToPositiveInfinity? ==> r <= 0 && r1 <= 0 && r2 <= 0
    requires rounding.ToZero? ==> (if a >= 0 then r >= 0 else r <= 0) && (if a1 >= 0 then r1 >= 0 else r1 <= 0)
                                  && (if a2 >= 0 then r2 >= 0 else r2 <= 0)
    requires rounding.AwayFromZero? ==> (if a >= 0 then r <= 0 else r >= 0) && (if a1 >= 0 then r1 <= 0 else r1 >= 0)
                                        && (if a2 >= 0 then r2 <= 0 else r2 >= 0)
    requires a1 == 0 ==> r1 == 0
    requires a2 == 0 ==> r2 == 0
    ensures -2 * P < (a - a1 - a2) - (r - r1 - r2) < 2 * P
  {
  }

  /** A one-sided strategy turned around by a divisor of -1 or less. */
  lemma TurnedEnough(rounding: Strategy, d: real, a: int, a1: int, a2: int)
    requires OneSided(rounding) && d <= -1.0 && Apart(rounding, a, a1, a2)
    ensures -1 <= Moved(rounding, d, a, a1, a2) <= 1
  {
    SumOfQuotients(a, a1, a2, d);
    var g := (a - a1 - a2) as real / d;
    NegatedQuotient((a - a1 - a2) as real, d);
    SmallQuotient(a - a1 - a2, -d);
  }

  lemma SmallQuotient(e: int, d: real)
    requires d >= 1.0 && -1 <= e <= 1
    ensures var q := e as real / d; if e >= 0 then 0.0 <= q <= 1.0 else -1.0 <= q <= 0.0
  {
    var q := e as real / d;
    DivOf(e as real, q, d);
    ScaleMonotone(q, 1.0, d);
    ScaleMonotone(-1.0, q, d);
    ScaleMonotone(0.0, q, d);
    ScaleMonotone(q, 0.0, d);
    assert 0.0 * d == 0.0;
  }

  /** Where one unit suffices, it does for every split rounding allows. */
  lemma OneUnitEnough(rounding: Strategy, d: real, a: int, a1: int, a2: int)
    requires d != 0.0 && OneUnitSuffices(rounding, d) && Apart(rounding, a, a1, a2)
    ensures -1 <= Moved(rounding, d, a, a1, a2) <= 1
  {
    hide Moved, IsWhole;
    if OneSided(rounding) && d < 0.0 {
      TurnedEnough(rounding, d, a, a1, a2);
    } else {
      if d < 0.0 {
        MovedMirrored(rounding, d, a, a1, a2);
      }
      if rounding.IsNearest() {
        NearestEnough(rounding, Abs(d), a, a1, a2);
      } else {
        WholeEnough(rounding, Abs(d), a, a1, a2);
      }
    }
  }
}
