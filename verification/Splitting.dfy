/**
 * Splitting one charging period in two, as a CPO may do at any moment: what pricing owes it to
 * leave alone, over `price` and `quantise_and_cost` of `src/tariffs/engine.rs`.
 */
module Splitting {
  import opened Wrappers
  import opened Decimals
  import opened Sums
  import opened Grouping
  import opened Policy
  import opened Tariffs
  import opened Input
  import opened Lookup
  import opened Breakdown
  import opened Selection
  import opened Segments
  import opened Quantise
  import opened OneUnit

  // ---------------------------------------------------------------------------------------
  // One segment
  // ---------------------------------------------------------------------------------------

  /** `s` is split into `s1` and `s2`: the same component prices all three, and the quantities add up. */
  predicate SplitPair(s: Segment, s1: Segment, s2: Segment) {
    && s1.dimension == s2.dimension == s.dimension
    && s1.stepSize == s2.stepSize == s.stepSize
    && s1.priced.price == s2.priced.price == s.priced.price
    && s1.priced.vat == s2.priced.vat == s.priced.vat
    && s1.priced.basis == s2.priced.basis == s.priced.basis
    && s1.priced.quantity + s2.priced.quantity == s.priced.quantity
  }

  /** Whether the net amount is the stated amount divided, and so rounded twice. */
  predicate TakesTaxOut(s: Segment) {
    s.priced.basis.Included? && s.priced.vat.Some?
  }

  /** What the stated amount of a segment whose tax is taken out is divided by. */
  function Divisor(rate: real): real {
    1.0 + rate / 100.0
  }

  /**
   * How many units splitting a segment can move its cost: one, unless tax is taken out of its price
   * at a rate where dividing by it can move more.
   */
  function SplitUnits(policy: PricingPolicy, s: Segment): int {
    if !TakesTaxOut(s) || OneUnitAt(policy.rounding, s.priced.vat.value) then 1
    else DividedUnits(policy.rounding, Divisor(s.priced.vat.value))
  }

  /** The rates at which splitting a segment whose tax is taken out moves its cost by one unit at most. */
  predicate OneUnitAt(rounding: Strategy, rate: real) {
    Divisor(rate) == 0.0 || OneUnitSuffices(rounding, Divisor(rate))
  }

  /** How far splitting a segment can move its cost. */
  function SplitSlack(policy: PricingPolicy, s: Segment): real {
    SplitUnits(policy, s) as real * policy.ComponentUnit()
  }

  /** How far splitting a segment moves its cost. */
  function CostMoved(policy: PricingPolicy, s: Segment, s1: Segment, s2: Segment): real {
    Costed(policy, s).cost - Costed(policy, s1).cost - Costed(policy, s2).cost
  }

  lemma StatedSplit(policy: PricingPolicy, s: Segment, s1: Segment, s2: Segment)
    requires SplitPair(s, s1, s2)
    ensures Abs(Stated(policy, s.priced) - Stated(policy, s1.priced) - Stated(policy, s2.priced))
            <= policy.ComponentUnit()
  {
    hide PricingPolicy.RoundComponent, PricingPolicy.ComponentUnit, Charge;
    ChargeSplit(s.priced, s1.priced, s2.priced);
    ComponentSplit(policy, Charge(s.priced), Charge(s1.priced), Charge(s2.priced));
  }

  lemma ChargeSplit(s: PricedSegment, s1: PricedSegment, s2: PricedSegment)
    requires s1.price == s2.price == s.price && s1.quantity + s2.quantity == s.quantity
    ensures Charge(s) == Charge(s1) + Charge(s2)
  {
    Distribute(s1.quantity, s2.quantity, s.price);
  }

  lemma ComponentSplit(policy: PricingPolicy, x: real, x1: real, x2: real)
    requires x == x1 + x2
    ensures Abs(policy.RoundComponent(x) - policy.RoundComponent(x1) - policy.RoundComponent(x2))
            <= policy.ComponentUnit()
  {
    hide RoundInt, Pow10;
    RoundSplit(policy.rounding, Pow10(policy.componentDecimals), x1, x2);
  }

  lemma DivideThenScale(y: real, z: real, d: real, p: real, w: real)
    requires d != 0.0 && z == y / d && w == y * p
    ensures z * p == w / d
  {
    SignedDivOf(y, z, d);
    ScaledBoth(y, z, d, p);
    ScaledQuotient(z, d, p, w);
  }

  lemma ScaledBoth(y: real, z: real, d: real, p: real)
    requires y == z * d
    ensures y * p == (z * d) * p
  {
  }

  lemma ScaledQuotient(z: real, d: real, p: real, w: real)
    requires d != 0.0 && w == (z * d) * p
    ensures w / d == z * p
  {
    var q := w / d;
    SignedDivOf(w, q, d);
    assert (q - z * p) * d == q * d - z * p * d;
  }

  /** What the price component states for a segment, in units and not yet rounded. */
  function InUnits(policy: PricingPolicy, s: Segment): real {
    Charge(s.priced) * Pow10(policy.componentDecimals)
  }

  lemma UnitsAdd(policy: PricingPolicy, s: Segment, s1: Segment, s2: Segment)
    requires SplitPair(s, s1, s2)
    ensures InUnits(policy, s) == InUnits(policy, s1) + InUnits(policy, s2)
  {
    ChargeSplit(s.priced, s1.priced, s2.priced);
    hide Charge;
    ProductAdds(Charge(s.priced), Charge(s1.priced), Charge(s2.priced), Pow10(policy.componentDecimals));
  }

  lemma ProductAdds(x: real, x1: real, x2: real, p: real)
    requires x == x1 + x2
    ensures x * p == x1 * p + x2 * p
  {
    Distribute(x1, x2, p);
  }

  /** The net amount of a segment whose tax is taken out: whole units, divided and rounded again. */
  lemma NetUnits(policy: PricingPolicy, s: Segment) returns (a: int)
    requires TakesTaxOut(s) && Divisor(s.priced.vat.value) != 0.0
    ensures a == RoundInt(policy.rounding, InUnits(policy, s))
    ensures Costed(policy, s).cost == RoundInt(policy.rounding, a as real / Divisor(s.priced.vat.value)) as real
                                      / Pow10(policy.componentDecimals)
  {
    hide RoundInt, InUnits, Round, Stated, Costed;
    a := RoundInt(policy.rounding, InUnits(policy, s));
    var p := Pow10(policy.componentDecimals);
    var d := Divisor(s.priced.vat.value);
    var stated := Stated(policy, s.priced);
    StatedUnits(policy, s);
    DivideThenScale(stated, stated / d, d, p, a as real);
    RoundAt(policy.rounding, p, stated / d, a as real / d);
    NetOf(policy, s);
  }

  lemma StatedUnits(policy: PricingPolicy, s: Segment)
    ensures Stated(policy, s.priced) * Pow10(policy.componentDecimals)
            == RoundInt(policy.rounding, InUnits(policy, s)) as real
  {
    hide RoundInt, Charge, Stated;
    StatedIsRounded(policy, s);
    RoundedTimes(policy.rounding, Pow10(policy.componentDecimals), Charge(s.priced), InUnits(policy, s),
                 Stated(policy, s.priced));
  }

  lemma StatedIsRounded(policy: PricingPolicy, s: Segment)
    ensures Stated(policy, s.priced) == Round(policy.rounding, Pow10(policy.componentDecimals), Charge(s.priced))
  {
    hide Round, Charge;
  }

  lemma RoundedTimes(rounding: Strategy, p: real, x: real, z: real, y: real)
    requires p > 0.0 && z == x * p && y == Round(rounding, p, x)
    ensures y * p == RoundInt(rounding, z) as real
  {
    hide RoundInt;
    DivOf(RoundInt(rounding, z) as real, y, p);
  }

  lemma NetOf(policy: PricingPolicy, s: Segment)
    requires TakesTaxOut(s) && Divisor(s.priced.vat.value) != 0.0
    ensures Costed(policy, s).cost == Round(policy.rounding, Pow10(policy.componentDecimals),
                                            Stated(policy, s.priced) / Divisor(s.priced.vat.value))
  {
    hide Stated, Round;
  }

  /** The parts of a number, rounded, are out by one unit at most, and a one-sided strategy to one side only. */
  lemma RoundIntApart(rounding: Strategy, x: real, x1: real, x2: real)
    requires x == x1 + x2
    ensures Apart(rounding, RoundInt(rounding, x), RoundInt(rounding, x1), RoundInt(rounding, x2))
  {
    RoundIntSplit(rounding, x1, x2);
    if OneSided(rounding) {
      RoundIntNeighbours(rounding, x);
      OneSidedSplit(rounding, x1, x2);
    }
  }

  lemma OneSidedSplit(rounding: Strategy, x: real, y: real)
    ensures rounding.ToNegativeInfinity? ==> RoundInt(rounding, x + y) >= RoundInt(rounding, x) + RoundInt(rounding, y)
    ensures rounding.ToPositiveInfinity? ==> RoundInt(rounding, x + y) <= RoundInt(rounding, x) + RoundInt(rounding, y)
  {
    if rounding.ToNegativeInfinity? {
      FloorAtLeast(x + y, x.Floor + y.Floor);
    } else if rounding.ToPositiveInfinity? {
      CeilAtMost(x + y, Ceil(x) + Ceil(y));
    }
  }

  lemma FloorAtLeast(x: real, n: int)
    requires x >= n as real
    ensures x.Floor >= n
  {
  }

  lemma CeilAtMost(x: real, n: int)
    requires x <= n as real
    ensures Ceil(x) <= n
  {
  }

  /** Splitting moves the net amount by what the units of the parts move, divided. */
  lemma CostsMove(policy: PricingPolicy, s: Segment, s1: Segment, s2: Segment) returns (a: int, a1: int, a2: int)
    requires SplitPair(s, s1, s2) && TakesTaxOut(s) && Divisor(s.priced.vat.value) != 0.0
    ensures && a == RoundInt(policy.rounding, InUnits(policy, s))
            && a1 == RoundInt(policy.rounding, InUnits(policy, s1))
            && a2 == RoundInt(policy.rounding, InUnits(policy, s2))
            && CostMoved(policy, s, s1, s2)
               == Moved(policy.rounding, Divisor(s.priced.vat.value), a, a1, a2) as real
                  / Pow10(policy.componentDecimals)
  {
    hide RoundInt, InUnits, Costed;
    var d := Divisor(s.priced.vat.value);
    a := NetUnits(policy, s);
    a1 := NetUnits(policy, s1);
    a2 := NetUnits(policy, s2);
    QuotientOfDifference(Pow10(policy.componentDecimals), RoundInt(policy.rounding, a as real / d),
                         RoundInt(policy.rounding, a1 as real / d), RoundInt(policy.rounding, a2 as real / d));
  }

  lemma QuotientOfDifference(p: real, l: int, m: int, n: int)
    requires p > 0.0
    ensures l as real / p - m as real / p - n as real / p == (l - m - n) as real / p
  {
    var (x, y, z) := (l as real / p, m as real / p, n as real / p);
    DivOf(l as real, x, p);
    DivOf(m as real, y, p);
    DivOf(n as real, z, p);
    Distribute(x, y, p);
    Distribute(x - y, z, p);
    DivOf((l - m - n) as real, x - y - z, p);
  }

  /** An amount of whole units is within so many of them exactly when its number is. */
  lemma UnitsWithin(n: int, k: int, p: real)
    requires p > 0.0
    ensures Abs(n as real / p) <= k as real * (1.0 / p) <==> -k <= n <= k
  {
    var (x, u) := (n as real / p, 1.0 / p);
    DivOf(n as real, x, p);
    DivOf(1.0, u, p);
    var bound := k as real * u;
    assert bound * p == k as real * (u * p);
    ScaleMonotone(x, bound, p);
    ScaleMonotone(-bound, x, p);
    assert -bound * p == -(bound * p);
  }

  lemma TaxTakenOut(policy: PricingPolicy, s: Segment, s1: Segment, s2: Segment)
    requires SplitPair(s, s1, s2) && TakesTaxOut(s) && Divisor(s.priced.vat.value) != 0.0
    ensures Abs(CostMoved(policy, s, s1, s2)) <= SplitSlack(policy, s)
  {
    hide RoundInt, InUnits, CostMoved, Moved, DividedUnits, OneUnitSuffices;
    var d := Divisor(s.priced.vat.value);
    var a, a1, a2 := CostsMove(policy, s, s1, s2);
    UnitsAdd(policy, s, s1, s2);
    RoundIntApart(policy.rounding, InUnits(policy, s), InUnits(policy, s1), InUnits(policy, s2));
    if OneUnitSuffices(policy.rounding, d) {
      OneUnitEnough(policy.rounding, d, a, a1, a2);
    } else {
      DividedNumerators(policy.rounding, a, a1, a2, d);
    }
    UnitsWithin(Moved(policy.rounding, d, a, a1, a2), SplitUnits(policy, s), Pow10(policy.componentDecimals));
  }

  /** Splitting a segment moves its cost by at most its slack, for every strategy and every rate. */
  lemma SegmentSplit(policy: PricingPolicy, s: Segment, s1: Segment, s2: Segment)
    requires SplitPair(s, s1, s2)
    ensures Abs(CostMoved(policy, s, s1, s2)) <= SplitSlack(policy, s)
  {
    hide PricingPolicy.RoundComponent, Stated, PricingPolicy.ComponentUnit, DividedUnits, OneUnitSuffices;
    StatedSplit(policy, s, s1, s2);
    if TakesTaxOut(s) && Divisor(s.priced.vat.value) != 0.0 {
      TaxTakenOut(policy, s, s1, s2);
    }
  }

  /** A segment of `x` units at a price of 1, tax included at `rate`. */
  function Priced(policy: PricingPolicy, rate: real, x: real): Segment {
    Segment(Energy, 1, PricedSegment(0, x / Pow10(policy.componentDecimals), 1.0, Some(rate), 0.0, 0.0, Included,
                                     Applied("", 0, 0, false)))
  }

  /** An amount that rounds to `m` units and, doubled, to `2 * m + e` of them. */
  function HalfAmount(rounding: Strategy, m: int, e: int): real {
    m as real + e as real * (if rounding.IsNearest() then 0.4 else 0.6)
  }

  lemma HalfRounds(rounding: Strategy, m: int, e: int)
    requires e == 1 || e == -1
    requires m >= 0 && (rounding.IsNearest() && e == -1 ==> m >= 1) && (rounding.AwayFromZero? ==> m >= 1)
    requires !rounding.IsNearest() ==> e == if RoundsDown(rounding) then 1 else -1
    ensures var x := HalfAmount(rounding, m, e);
            RoundInt(rounding, x) == m && RoundInt(rounding, x + x) == 2 * m + e
  {
    var x := HalfAmount(rounding, m, e);
    if e == 1 {
      assert x.Floor == m && (x + x).Floor == if rounding.IsNearest() then 2 * m else 2 * m + 1;
    } else {
      assert x.Floor == m - 1 && (x + x).Floor == if rounding.IsNearest() then 2 * m - 1 else 2 * m - 2;
    }
  }

  lemma ScaledCharge(policy: PricingPolicy, rate: real, x: real)
    ensures InUnits(policy, Priced(policy, rate, x)) == x
  {
    var p := Pow10(policy.componentDecimals);
    DivOf(x, x / p, p);
  }

  lemma HalvesOf(policy: PricingPolicy, rate: real, x: real)
    ensures SplitPair(Priced(policy, rate, x + x), Priced(policy, rate, x), Priced(policy, rate, x))
  {
    var p := Pow10(policy.componentDecimals);
    var (y, z) := (x / p, (x + x) / p);
    DivOf(x, y, p);
    Distribute(y, y, p);
    DivOf(x + x, y + y, p);
  }

  /** At a rate where one unit is not enough, two equal halves that move the cost by more. */
  lemma TwoHalvesMove(policy: PricingPolicy, rate: real) returns (s: Segment, h: Segment)
    requires !OneUnitAt(policy.rounding, rate)
    ensures SplitPair(s, h, h) && TakesTaxOut(s) && s.priced.vat == Some(rate)
    ensures Abs(CostMoved(policy, s, h, h)) >= 2.0 * policy.ComponentUnit() > policy.ComponentUnit()
  {
    hide OneUnitSuffices, Fails, Charge, CostMoved, SplitPair, Moved;
    var (r, d) := (policy.rounding, Divisor(rate));
    var m, e := OneUnitFails(r, d);
    s, h := TwoHalves(policy, rate, m, e);
    FailsByTwo(r, d, m, e);
    UnitsReached(Moved(r, d, 2 * m + e, m, m), Pow10(policy.componentDecimals));
  }

  lemma FailsByTwo(rounding: Strategy, d: real, m: int, e: int)
    requires d != 0.0 && Fails(rounding, d, m, e)
    ensures var n := Moved(rounding, d, 2 * m + e, m, m); n >= 2 || n <= -2
  {
    hide Moved;
  }

  lemma UnitsReached(n: int, p: real)
    requires p > 0.0 && (n >= 2 || n <= -2)
    ensures Abs(n as real / p) >= 2.0 * (1.0 / p) > 1.0 / p
  {
    var (x, u) := (n as real / p, 1.0 / p);
    DivOf(n as real, x, p);
    DivOf(1.0, u, p);
    ScaleMonotone(2.0 * u, x, p);
    ScaleMonotone(x, -2.0 * u, p);
    assert 2.0 * u * p == 2.0 * (u * p) && -2.0 * u * p == -2.0 * (u * p);
    ScaleMonotone(u, 0.0, p);
  }

  /** Halves of `m` units each, of `2 * m + e` units. */
  lemma TwoHalves(policy: PricingPolicy, rate: real, m: int, e: int) returns (s: Segment, h: Segment)
    requires Divisor(rate) != 0.0 && (e == 1 || e == -1)
    requires m >= 0 && (policy.rounding.IsNearest() && e == -1 ==> m >= 1) && (policy.rounding.AwayFromZero? ==> m >= 1)
    requires !policy.rounding.IsNearest() ==> e == if RoundsDown(policy.rounding) then 1 else -1
    ensures SplitPair(s, h, h) && TakesTaxOut(s) && s.priced.vat == Some(rate)
    ensures CostMoved(policy, s, h, h)
            == Moved(policy.rounding, Divisor(rate), 2 * m + e, m, m) as real / Pow10(policy.componentDecimals)
  {
    hide RoundInt, InUnits, CostMoved, Moved, HalfAmount;
    HalfRounds(policy.rounding, m, e);
    var x := HalfAmount(policy.rounding, m, e);
    s, h := Priced(policy, rate, x + x), Priced(policy, rate, x);
    HalvesOf(policy, rate, x);
    ScaledCharge(policy, rate, x + x);
    ScaledCharge(policy, rate, x);
    var a, a1, a2 := CostsMove(policy, s, h, h);
  }

  /** Every split of a segment whose tax is taken out at `rate` moves its cost by one unit at most. */
  ghost predicate MovesOneUnit(policy: PricingPolicy, rate: real) {
    forall s, s1, s2 :: SplitPair(s, s1, s2) && TakesTaxOut(s) && s.priced.vat == Some(rate) ==>
                          Abs(CostMoved(policy, s, s1, s2)) <= policy.ComponentUnit()
  }

  /** One unit is enough for every split exactly at the rates whose divisor says so. */
  lemma OneUnitExactly(policy: PricingPolicy, rate: real)
    ensures MovesOneUnit(policy, rate) <==> OneUnitAt(policy.rounding, rate)
  {
    hide OneUnitAt, CostMoved, PricingPolicy.ComponentUnit, SplitPair;
    if OneUnitAt(policy.rounding, rate) {
      forall s, s1, s2 | SplitPair(s, s1, s2) && TakesTaxOut(s) && s.priced.vat == Some(rate)
        ensures Abs(CostMoved(policy, s, s1, s2)) <= policy.ComponentUnit()
      {
        SegmentSplit(policy, s, s1, s2);
      }
    } else {
      var s, h := TwoHalvesMove(policy, rate);
    }
  }

  /** A rate of zero or more splits within two units, whatever the rounding strategy. */
  lemma TwoUnitsSuffice(policy: PricingPolicy, s: Segment)
    requires s.priced.vat.Some? ==> s.priced.vat.value >= 0.0
    ensures SplitSlack(policy, s) <= 2.0 * policy.ComponentUnit()
  {
    hide OneUnitSuffices;
    var unit := policy.ComponentUnit();
    DivMonotone(0.0, 1.0, Pow10(policy.componentDecimals));
    if TakesTaxOut(s) {
      AtMostTwo(policy.rounding, Divisor(s.priced.vat.value));
    }
    ScaleUnits(SplitUnits(policy, s), unit);
  }

  lemma AtMostTwo(rounding: Strategy, divisor: real)
    requires divisor >= 1.0
    ensures DividedUnits(rounding, divisor) <= 2
  {
    var gap := 1.0 / divisor;
    DivOf(1.0, gap, divisor);
    ScaleMonotone(gap, 1.0, divisor);
    assert gap <= 1.0;
  }

  lemma ScaleUnits(k: int, unit: real)
    requires k <= 2 && unit >= 0.0
    ensures k as real * unit <= 2.0 * unit
  {
    var t := 2.0 - k as real;
    assert t * unit >= 0.0;
  }

  /** The slack is the best bound at every rate of zero or more: where one unit is not enough, two are reached. */
  lemma SlackIsReached(policy: PricingPolicy, rate: real) returns (s: Segment, h: Segment)
    requires rate >= 0.0 && !OneUnitAt(policy.rounding, rate)
    ensures SplitPair(s, h, h) && TakesTaxOut(s) && s.priced.vat == Some(rate)
    ensures Abs(CostMoved(policy, s, h, h)) == SplitSlack(policy, s) == 2.0 * policy.ComponentUnit()
  {
    hide OneUnitAt, CostMoved, PricingPolicy.ComponentUnit, SplitPair, SplitSlack;
    s, h := TwoHalvesMove(policy, rate);
    SegmentSplit(policy, s, h, h);
    TwoUnitsSuffice(policy, s);
  }

  /** The usual strategy needs no more at 0%, 50% and 100% and beyond, and does at 20% and 25%. */
  lemma UsualRates(rate: real)
    ensures OneUnitAt(DEFAULT.rounding, 0.0) && OneUnitAt(DEFAULT.rounding, 50.0)
    ensures rate >= 100.0 ==> OneUnitAt(DEFAULT.rounding, rate)
    ensures !OneUnitAt(DEFAULT.rounding, 20.0) && !OneUnitAt(DEFAULT.rounding, 25.0)
  {
    BelowTwo(0.0, 1.0, 1.0);
    BelowTwo(50.0, 1.5, 2.0);
    BelowTwo(20.0, 1.2, 1.25);
    var third := 1.0 / 0.75;
    BelowTwo(25.0, 1.25, third);
    assert 1.0.Floor == 1 && 2.0.Floor == 2 && 1.25.Floor == 1 && third.Floor == 1;
    assert 1.3 < third < 1.4;
  }

  lemma BelowTwo(rate: real, d: real, q: real)
    requires d == Divisor(rate) && 1.0 <= d < 2.0 && q == 1.0 / (2.0 - d)
    ensures OneUnitAt(MidpointAwayFromZero, rate) <==> IsWhole(q)
  {
  }

  /** Net and tax together move by at most one unit, whatever the tax basis. */
  lemma GrossSplit(policy: PricingPolicy, s: Segment, s1: Segment, s2: Segment)
    requires SplitPair(s, s1, s2) && s.priced.basis.Included?
    ensures Abs(Gross(Costed(policy, s)) - Gross(Costed(policy, s1)) - Gross(Costed(policy, s2)))
            <= policy.ComponentUnit()
  {
    hide Costed, Stated;
    IncludedIsExact(policy, s);
    IncludedIsExact(policy, s1);
    IncludedIsExact(policy, s2);
    StatedSplit(policy, s, s1, s2);
  }

  /**
   * Two units is the best bound where tax is taken out: at 25% included, 0.0003 split in halves
   * nets 0.0004 instead of 0.0002.
   */
  lemma TwoUnitsAreReached(s: Segment, s1: Segment)
    requires TakesTaxOut(s) && s.priced.vat.value == 25.0 && s.priced.price == 1.0 && s.priced.quantity == 0.0003
    requires SplitPair(s, s1, s1)
    ensures Costed(DEFAULT, s1).cost + Costed(DEFAULT, s1).cost - Costed(DEFAULT, s).cost
            == 2.0 * DEFAULT.ComponentUnit()
  {
    assert Pow10(4) == 10000.0;
    hide Costed, PricingPolicy.RoundComponent;
    assert s1.priced.quantity == 0.00015;
    AtDefault(0.00015, 1.5, 2);
    AtDefault(0.0003, 3.0, 3);
    AtDefault(0.00016, 1.6, 2);
    AtDefault(0.00024, 2.4, 2);
    NetAtQuarter(s1, 0.0002, 0.00016);
    NetAtQuarter(s, 0.0003, 0.00024);
  }

  lemma NetAtQuarter(s: Segment, stated: real, quotient: real)
    requires TakesTaxOut(s) && s.priced.vat.value == 25.0 && s.priced.price == 1.0
    requires DEFAULT.RoundComponent(s.priced.quantity) == stated && quotient * 1.25 == stated
    ensures Costed(DEFAULT, s).cost == DEFAULT.RoundComponent(quotient)
  {
    hide PricingPolicy.RoundComponent;
    assert Charge(s.priced) == s.priced.quantity;
    assert stated / 1.25 == quotient;
  }

  lemma AtDefault(x: real, scaled: real, n: int)
    requires x * 10000.0 == scaled && RoundInt(MidpointAwayFromZero, scaled) == n
    ensures DEFAULT.RoundComponent(x) == n as real / 10000.0
  {
    assert Pow10(4) == 10000.0;
  }

  // ---------------------------------------------------------------------------------------
  // The segments of one dimension
  // ---------------------------------------------------------------------------------------

  /** Every segment of `a` is split into the one at its place in `a1` and the one in `a2`. */
  predicate SplitList(a: seq<Segment>, a1: seq<Segment>, a2: seq<Segment>) {
    && |a1| == |a2| == |a|
    && forall i :: 0 <= i < |a| ==> SplitPair(a[i], a1[i], a2[i])
  }

  lemma {:induction false} SplitQuantities(a: seq<Segment>, a1: seq<Segment>, a2: seq<Segment>)
    requires SplitList(a, a1, a2)
    ensures SumBy(a, Quantity) == SumBy(a1, Quantity) + SumBy(a2, Quantity)
  {
    if a == [] {
    } else {
      var n := |a| - 1;
      SplitQuantities(a[..n], a1[..n], a2[..n]);
    }
  }

  function CostOf(policy: PricingPolicy, list: seq<Segment>): real {
    SumBy(CostedAll(policy, list), Cost)
  }

  lemma CostOfConcat(policy: PricingPolicy, a: seq<Segment>, b: seq<Segment>)
    ensures CostOf(policy, a + b) == CostOf(policy, a) + CostOf(policy, b)
  {
    hide Costed;
    assert CostedAll(policy, a + b) == CostedAll(policy, a) + CostedAll(policy, b);
    SumConcat(CostedAll(policy, a), CostedAll(policy, b), Cost);
  }

  lemma CostOfAppend(policy: PricingPolicy, a: seq<Segment>, s: Segment)
    ensures CostOf(policy, a + [s]) == CostOf(policy, a) + Costed(policy, s).cost
  {
    hide Costed;
    assert CostedAll(policy, a + [s]) == CostedAll(policy, a) + [Costed(policy, s)];
    SumAppend(CostedAll(policy, a), Costed(policy, s), Cost);
  }

  /** Splitting a list of segments moves its cost by at most `slack` for each. */
  lemma {:induction false} SplitCosts(policy: PricingPolicy, a: seq<Segment>, a1: seq<Segment>, a2: seq<Segment>,
                                      slack: real)
    requires SplitList(a, a1, a2)
    requires forall s :: s in a ==> SplitSlack(policy, s) <= slack
    ensures Abs(CostOf(policy, a) - CostOf(policy, a1) - CostOf(policy, a2)) <= Times(|a|, slack)
  {
    hide Costed, SplitSlack, SplitPair, CostOf;
    if a == [] {
      NoCost(policy);
    } else {
      var n := |a| - 1;
      SplitCosts(policy, a[..n], a1[..n], a2[..n], slack);
      assert a == a[..n] + [a[n]] && a1 == a1[..n] + [a1[n]] && a2 == a2[..n] + [a2[n]];
      CostOfAppend(policy, a[..n], a[n]);
      CostOfAppend(policy, a1[..n], a1[n]);
      CostOfAppend(policy, a2[..n], a2[n]);
      SegmentSplit(policy, a[n], a1[n], a2[n]);
    }
  }

  lemma NoCost(policy: PricingPolicy)
    ensures CostOf(policy, []) == 0.0
  {
  }

  /** The surplus of a split list lands on the second half of the last segment. */
  lemma AddToLastSplit(a: seq<Segment>, a1: seq<Segment>, a2: seq<Segment>, surplus: real)
    requires SplitList(a, a1, a2)
    ensures SplitList(AddToLast(a, surplus), a1, AddToLast(a2, surplus))
  {
  }

  lemma AddToLastConcat(a: seq<Segment>, b: seq<Segment>, surplus: real)
    requires b != []
    ensures AddToLast(a + b, surplus) == a + AddToLast(b, surplus)
  {
  }

  lemma TermsOfAdjusted(policy: PricingPolicy, a: seq<Segment>, surplus: real, slack: real)
    requires forall s :: s in a ==> SplitSlack(policy, s) <= slack
    ensures forall s :: s in AddToLast(a, surplus) ==> SplitSlack(policy, s) <= slack
  {
    forall s | s in AddToLast(a, surplus)
      ensures SplitSlack(policy, s) <= slack
    {
      var i :| 0 <= i < |a| && s == AddToLast(a, surplus)[i];
      assert a[i] in a;
    }
  }

  /**
   * In the middle of a dimension's segments, splitting `a` keeps what is measured and billed and
   * moves the cost by at most `slack` for each segment split.
   */
  lemma DimensionSplit(policy: PricingPolicy, d: Dimension, pre: seq<Segment>, a: seq<Segment>, a1: seq<Segment>,
                       a2: seq<Segment>, post: seq<Segment>, time: Option<Dimension>, slack: real)
    requires SplitList(a, a1, a2)
    requires forall s :: s in a ==> SplitSlack(policy, s) <= slack
    ensures var (whole, halves) := (pre + a + post, pre + (a1 + a2) + post);
            var q := policy.quantisation;
            && SumBy(whole, Quantity) == SumBy(halves, Quantity)
            && BilledFor(q, d, whole, time) == BilledFor(q, d, halves, time)
            && Abs(CostOf(policy, Adjusted(q, d, whole, time)) - CostOf(policy, Adjusted(q, d, halves, time)))
               <= Times(|a|, slack)
  {
    hide SplitSlack, CostOf, BilledFor, AddToLast, SumBy, SplitList, Times;
    var (whole, halves) := (pre + a + post, pre + (a1 + a2) + post);
    SameMeasured(pre, a, a1, a2, post);
    SameLastStep(pre, a, a1, a2, post);
    SameBilled(policy.quantisation, d, whole, halves, time);
    var surplus := BilledFor(policy.quantisation, d, whole, time) - SumBy(whole, Quantity);
    SplitMiddle(policy, pre, a, a1, a2, post, surplus, slack);
  }

  lemma SameBilled(q: Quantisation, d: Dimension, a: seq<Segment>, b: seq<Segment>, time: Option<Dimension>)
    requires SumBy(a, Quantity) == SumBy(b, Quantity) && (a == [] <==> b == [])
    requires a != [] ==> a[|a| - 1].stepSize == b[|b| - 1].stepSize
    ensures BilledFor(q, d, a, time) == BilledFor(q, d, b, time)
  {
    hide Apply, SumBy;
  }

  lemma SameMeasured(pre: seq<Segment>, a: seq<Segment>, a1: seq<Segment>, a2: seq<Segment>, post: seq<Segment>)
    requires SplitList(a, a1, a2)
    ensures SumBy(pre + a + post, Quantity) == SumBy(pre + (a1 + a2) + post, Quantity)
  {
    SplitQuantities(a, a1, a2);
    SumConcat(pre + a, post, Quantity);
    SumConcat(pre, a, Quantity);
    SumConcat(pre + (a1 + a2), post, Quantity);
    SumConcat(pre, a1 + a2, Quantity);
    SumConcat(a1, a2, Quantity);
  }

  lemma SameLastStep(pre: seq<Segment>, a: seq<Segment>, a1: seq<Segment>, a2: seq<Segment>, post: seq<Segment>)
    requires SplitList(a, a1, a2)
    ensures var (whole, halves) := (pre + a + post, pre + (a1 + a2) + post);
            (whole == [] <==> halves == [])
            && (whole != [] ==> whole[|whole| - 1].stepSize == halves[|halves| - 1].stepSize)
  {
  }

  lemma SplitMiddle(policy: PricingPolicy, pre: seq<Segment>, a: seq<Segment>, a1: seq<Segment>, a2: seq<Segment>,
                    post: seq<Segment>, surplus: real, slack: real)
    requires SplitList(a, a1, a2)
    requires forall s :: s in a ==> SplitSlack(policy, s) <= slack
    ensures Abs(CostOf(policy, AddToLast(pre + a + post, surplus))
                - CostOf(policy, AddToLast(pre + (a1 + a2) + post, surplus))) <= Times(|a|, slack)
  {
    hide Costed, SplitSlack, CostOf, SplitPair;
    if post != [] {
      AddToLastConcat(pre + a, post, surplus);
      AddToLastConcat(pre + (a1 + a2), post, surplus);
      SplitInside(policy, pre, a, a1, a2, AddToLast(post, surplus), slack);
    } else if a != [] {
      AddToLastConcat(pre, a, surplus);
      AddToLastConcat(a1, a2, surplus);
      AddToLastConcat(pre, a1 + a2, surplus);
      AddToLastSplit(a, a1, a2, surplus);
      TermsOfAdjusted(policy, a, surplus, slack);
      assert pre + a + post == pre + a && pre + (a1 + a2) + post == pre + (a1 + a2);
      SplitInside(policy, pre, AddToLast(a, surplus), a1, AddToLast(a2, surplus), [], slack);
      assert pre + AddToLast(a, surplus) + [] == pre + AddToLast(a, surplus);
      assert pre + (a1 + AddToLast(a2, surplus)) + [] == pre + (a1 + AddToLast(a2, surplus));
    }
  }

  lemma SplitInside(policy: PricingPolicy, pre: seq<Segment>, a: seq<Segment>, a1: seq<Segment>, a2: seq<Segment>,
                    post: seq<Segment>, slack: real)
    requires SplitList(a, a1, a2)
    requires forall s :: s in a ==> SplitSlack(policy, s) <= slack
    ensures Abs(CostOf(policy, pre + a + post) - CostOf(policy, pre + (a1 + a2) + post)) <= Times(|a|, slack)
  {
    hide Costed, SplitSlack, CostOf, SplitPair;
    SplitCosts(policy, a, a1, a2, slack);
    CostOfConcat(policy, pre + a, post);
    CostOfConcat(policy, pre, a);
    CostOfConcat(policy, pre + (a1 + a2), post);
    CostOfConcat(policy, pre, a1 + a2);
    CostOfConcat(policy, a1, a2);
  }

  // ---------------------------------------------------------------------------------------
  // One period
  // ---------------------------------------------------------------------------------------

  /** The stretch finds the same component for every quantity it consumes, and for a flat fee. */
  predicate SameLookups(s: Stretch, t: Stretch) {
    && s.plan.tariff == t.plan.tariff
    && (forall c :: c in PeriodQuantities(s.period) && c.quantity != 0.0 ==>
          FindComponent(s.plan.tariff, c.dimension, s.plan.context.Reserving(c.reserving))
          == FindComponent(t.plan.tariff, c.dimension, t.plan.context.Reserving(c.reserving)))
    && (forall reserving: bool ::
          FindComponent(s.plan.tariff, Flat, s.plan.context.Reserving(reserving))
          == FindComponent(t.plan.tariff, Flat, t.plan.context.Reserving(reserving)))
  }

  /** `q` is split into non-zero parts, or is zero like both of them. */
  predicate SplitQuantity(q: real, q1: real, q2: real) {
    q == q1 + q2 && (if q == 0.0 then q1 == q2 == 0.0 else q1 != 0.0 && q2 != 0.0)
  }

  predicate SplitPeriod(p: PricedPeriod, p1: PricedPeriod, p2: PricedPeriod) {
    && p1.start == p.start
    && SplitQuantity(p.energyKwh, p1.energyKwh, p2.energyKwh)
    && SplitQuantity(p.chargingHours, p1.chargingHours, p2.chargingHours)
    && SplitQuantity(p.reservationHours, p1.reservationHours, p2.reservationHours)
    && SplitQuantity(p.parkingHours, p1.parkingHours, p2.parkingHours)
  }

  /** `t` is split into `t1` and `t2`: the quantities add up, and every lookup finds the same component. */
  predicate SplitStretch(t: Stretch, t1: Stretch, t2: Stretch) {
    SplitPeriod(t.period, t1.period, t2.period) && SameLookups(t, t1) && SameLookups(t, t2)
  }

  /** The flat fee of both halves is that of the whole. */
  lemma FlatOfHalves(t: Stretch, t1: Stretch, t2: Stretch)
    requires SplitStretch(t, t1, t2)
    ensures t1.FlatFee() == t.FlatFee()
    ensures t2.FlatFee().Some? <==> t.FlatFee().Some?
  {
    hide FindComponent;
  }

  /** The segment of one quantity splits like the quantity. */
  lemma QuantityOfHalves(t: Stretch, t1: Stretch, t2: Stretch, k: nat)
    requires SplitStretch(t, t1, t2) && k < 4
    ensures var c := (s: Stretch) => PeriodQuantities(s.period)[k];
            var (x, x1, x2) := (QuantitySegment(t.plan, t.period, c(t)), QuantitySegment(t1.plan, t1.period, c(t1)),
                                QuantitySegment(t2.plan, t2.period, c(t2)));
            && (x.Some? <==> x1.Some?) && (x.Some? <==> x2.Some?)
            && (x.Some? ==> SplitPair(x.value, x1.value, x2.value))
  {
    hide FindComponent;
    assert PeriodQuantities(t.period)[k] in PeriodQuantities(t.period);
  }

  lemma NoQuantities(s: Stretch, d: Dimension)
    ensures OfDimension(QuantitySegments(s.plan, s.period, PeriodQuantities(s.period)[..0]), d) == []
  {
  }

  lemma SplitListAppend(a: seq<Segment>, a1: seq<Segment>, a2: seq<Segment>, x: Option<Segment>, x1: Option<Segment>,
                        x2: Option<Segment>)
    requires SplitList(a, a1, a2)
    requires (x.Some? <==> x1.Some?) && (x.Some? <==> x2.Some?)
    requires x.Some? ==> SplitPair(x.value, x1.value, x2.value)
    ensures SplitList(a + ToSeq(x), a1 + ToSeq(x1), a2 + ToSeq(x2))
  {
    hide SplitPair;
  }

  /** The quantities of a period, kept to one dimension, split like the period. */
  lemma {:induction false} QuantitiesOfHalves(t: Stretch, t1: Stretch, t2: Stretch, n: nat, d: Dimension)
    requires SplitStretch(t, t1, t2) && n <= 4
    ensures var of := (s: Stretch) => OfDimension(QuantitySegments(s.plan, s.period,
            PeriodQuantities(s.period)[..n]), d);
            SplitList(of(t), of(t1), of(t2))
  {
    hide QuantitySegment, QuantitySegments, OfDimension, SplitStretch, SplitList, SplitPair, PeriodQuantities;
    if n == 0 {
      NoQuantities(t, d);
      NoQuantities(t1, d);
      NoQuantities(t2, d);
      assert SplitList([], [], []) by { NothingToSplit(); }
    } else {
      QuantitiesOfHalves(t, t1, t2, n - 1, d);
      var x := QuantitiesStep(t, n, d);
      var x1 := QuantitiesStep(t1, n, d);
      var x2 := QuantitiesStep(t2, n, d);
      QuantityOfHalves(t, t1, t2, n - 1);
      PairDimension(t, t1, t2, n - 1);
      var of := (s: Stretch) => OfDimension(QuantitySegments(s.plan, s.period, PeriodQuantities(s.period)[..n - 1]), d);
      SplitListAppend(of(t), of(t1), of(t2), x, x1, x2);
    }
  }

  lemma NothingToSplit()
    ensures SplitList([], [], [])
  {
  }

  lemma PairDimension(t: Stretch, t1: Stretch, t2: Stretch, k: nat)
    requires k < 4
    ensures var c := (s: Stretch) => PeriodQuantities(s.period)[k];
            forall s :: s in [t, t1, t2] ==>
              var x := QuantitySegment(s.plan, s.period, c(s));
              x.Some? ==> x.value.dimension == PeriodQuantities(t.period)[k].dimension
  {
    hide FindComponent;
  }

  lemma QuantitiesStep(s: Stretch, n: nat, d: Dimension) returns (kept: Option<Segment>)
    requires 0 < n <= 4
    ensures var q := PeriodQuantities(s.period);
            var x := QuantitySegment(s.plan, s.period, q[n - 1]);
            && kept == (if x.Some? && x.value.dimension == d then x else None)
            && OfDimension(QuantitySegments(s.plan, s.period, q[..n]), d)
               == OfDimension(QuantitySegments(s.plan, s.period, q[..n - 1]), d) + ToSeq(kept)
  {
    hide QuantitySegment, PeriodQuantities, OfDimension, QuantitySegments;
    var q := PeriodQuantities(s.period);
    assert q[..n][..n - 1] == q[..n - 1];
    SegmentsStep(s.plan, s.period, q[..n]);
    var before := QuantitySegments(s.plan, s.period, q[..n - 1]);
    var x := QuantitySegment(s.plan, s.period, q[n - 1]);
    kept := if x.Some? && x.value.dimension == d then x else None;
    if x.Some? {
      KeepOne(before, x.value, d);
    } else {
      assert before + [] == before;
    }
  }

  lemma SegmentsStep(plan: Plan, period: PricedPeriod, q: seq<Consumed>)
    requires q != []
    ensures QuantitySegments(plan, period, q)
            == QuantitySegments(plan, period, q[..|q| - 1]) + ToSeq(QuantitySegment(plan, period, q[|q| - 1]))
  {
    hide QuantitySegment;
  }

  lemma KeepOne(before: seq<Segment>, x: Segment, d: Dimension)
    ensures OfDimension(before + [x], d) == OfDimension(before, d) + if x.dimension == d then [x] else []
  {
    WithKeyStep(before, x, DimensionKey, d);
  }

  // ---------------------------------------------------------------------------------------
  // One session
  // ---------------------------------------------------------------------------------------

  /** What `stretches` add to a session in which a flat fee was or was not charged before. */
  function CollectFrom(charged: bool, stretches: seq<Stretch>): seq<Segment> {
    if stretches == [] then []
    else
      var n := |stretches| - 1;
      var before := CollectFrom(charged, stretches[..n]);
      before + stretches[n].Quantities()
      + (if charged || HasFlat(before) then [] else ToSeq(stretches[n].FlatFee()))
  }

  /** A session can be collected in two parts. */
  lemma {:induction false} CollectInParts(a: seq<Stretch>, b: seq<Stretch>)
    ensures Collect(a + b) == Collect(a) + CollectFrom(HasFlat(Collect(a)), b)
  {
    hide Stretch.Quantities, Stretch.FlatFee, HasFlat, ToSeq;
    if b == [] {
      assert a + b == a;
    } else {
      var n := |b| - 1;
      CollectInParts(a, b[..n]);
      assert (a + b)[..|a + b| - 1] == a + b[..n] && (a + b)[|a + b| - 1] == b[n];
      var (before, rest) := (Collect(a), CollectFrom(HasFlat(Collect(a)), b[..n]));
      FlatOfConcat(before, rest);
      var (quantities, fee) := (b[n].Quantities(), if HasFlat(before + rest) then [] else ToSeq(b[n].FlatFee()));
      assert Collect(a + b) == (before + rest) + quantities + fee;
      assert (before + rest) + quantities + fee == before + (rest + quantities + fee);
    }
  }

  lemma CollectOne(charged: bool, t: Stretch)
    ensures CollectFrom(charged, [t]) == t.Quantities() + if charged then [] else ToSeq(t.FlatFee())
    ensures charged || HasFlat(CollectFrom(charged, [t])) <==> charged || t.FlatFee().Some?
  {
    hide Stretch.Quantities, FlatSegment;
    assert [t][..0] == [];
    assert CollectFrom(charged, [t][..0]) == [];
    assert [] + t.Quantities() == t.Quantities();
    PeriodIsNotFlat(t);
    FlatOfConcat(t.Quantities(), if charged then [] else ToSeq(t.FlatFee()));
    if t.FlatFee().Some? {
      FlatFeeIsFlat(t);
    }
  }

  /** What the two halves of a stretch add: its flat fee comes with the first of them. */
  lemma CollectHalves(charged: bool, t: Stretch, t1: Stretch, t2: Stretch)
    requires SplitStretch(t, t1, t2)
    ensures CollectFrom(charged, [t1, t2])
            == t1.Quantities() + (if charged then [] else ToSeq(t.FlatFee())) + t2.Quantities()
    ensures charged || HasFlat(CollectFrom(charged, [t1, t2])) <==> charged || t.FlatFee().Some?
  {
    hide Stretch.Quantities, Stretch.FlatFee, SplitStretch;
    FlatOfHalves(t, t1, t2);
    assert [t1, t2][..1] == [t1];
    CollectOne(charged, t1);
    var first := CollectFrom(charged, [t1]);
    PeriodIsNotFlat(t2);
    FlatOfConcat(first, t2.Quantities());
    assert first + t2.Quantities() + [] == first + t2.Quantities();
  }

  lemma {:induction false} OnlyFlat(list: seq<Segment>, d: Dimension)
    requires if d.Flat? then !HasFlat(list) else forall s :: s in list ==> s.dimension.Flat?
    ensures OfDimension(list, d) == []
  {
    if list == [] {
    } else {
      var n := |list| - 1;
      OnlyFlat(list[..n], d);
      assert list[n] in list;
    }
  }

  /** The segments of one dimension that a stretch contributes, and that its halves contribute. */
  lemma MiddleOfHalves(charged: bool, t: Stretch, t1: Stretch, t2: Stretch, d: Dimension)
    requires SplitStretch(t, t1, t2)
    ensures var (whole, halves) := (OfDimension(CollectFrom(charged, [t]), d),
            OfDimension(CollectFrom(charged, [t1, t2]), d));
            if d.Flat? then whole == halves && OfDimension(t.Quantities(), d) == []
            else whole == OfDimension(t.Quantities(), d)
                 && halves == OfDimension(t1.Quantities(), d) + OfDimension(t2.Quantities(), d)
  {
    hide Stretch.Quantities, FlatSegment, SplitStretch, CollectFrom, OfDimension;
    var fee := if charged then [] else ToSeq(t.FlatFee());
    CollectOne(charged, t);
    CollectHalves(charged, t, t1, t2);
    Parts(t.Quantities(), fee, d);
    Parts(t1.Quantities(), fee, d);
    Parts(t1.Quantities() + fee, t2.Quantities(), d);
    PeriodIsNotFlat(t);
    PeriodIsNotFlat(t1);
    PeriodIsNotFlat(t2);
    if d.Flat? {
      OnlyFlat(t.Quantities(), d);
      OnlyFlat(t1.Quantities(), d);
      OnlyFlat(t2.Quantities(), d);
    } else {
      FeeIsFlat(t, fee);
      OnlyFlat(fee, d);
    }
  }

  lemma FeeIsFlat(t: Stretch, fee: seq<Segment>)
    requires fee == [] || fee == ToSeq(t.FlatFee())
    ensures forall s :: s in fee ==> s.dimension.Flat?
  {
  }

  lemma Parts(a: seq<Segment>, b: seq<Segment>, d: Dimension)
    ensures OfDimension(a + b, d) == OfDimension(a, d) + OfDimension(b, d)
  {
    WithKeyConcat(a, b, DimensionKey, d);
  }

  /** The quantities of `t` in dimension `d` are split within `slack`. */
  ghost predicate SplitsWithin(policy: PricingPolicy, t: Stretch, d: Dimension, slack: real) {
    forall s :: s in OfDimension(t.Quantities(), d) ==> SplitSlack(policy, s) <= slack
  }

  /** The figures of one dimension that splitting a period must keep, and the cost it may move. */
  ghost predicate SameDimension(policy: PricingPolicy, whole: seq<Segment>, halves: seq<Segment>, d: Dimension,
      bound: real) {
    var (w, h) := (OfDimension(whole, d), OfDimension(halves, d));
    var (timeW, timeH, q) := (QuantisedTime(whole), QuantisedTime(halves), policy.quantisation);
    && timeW == timeH
    && (w == [] <==> h == [])
    && SumBy(w, Quantity) == SumBy(h, Quantity)
    && BilledFor(q, d, w, timeW) == BilledFor(q, d, h, timeH)
    && Abs(CostOf(policy, Adjusted(q, d, w, timeW)) - CostOf(policy, Adjusted(q, d, h, timeH))) <= bound
  }

  /** How a dimension's segments lie around the stretch that is split. */
  lemma AroundTheSplit(pre: seq<Stretch>, t: Stretch, t1: Stretch, t2: Stretch, post: seq<Stretch>, d: Dimension)
    returns (before: seq<Segment>, after: seq<Segment>)
    requires SplitStretch(t, t1, t2)
    ensures var (whole, halves) := (OfDimension(Collect(pre + [t] + post), d),
            OfDimension(Collect(pre + [t1, t2] + post), d));
            if d.Flat? then whole == halves && OfDimension(t.Quantities(), d) == []
            else && whole == before + OfDimension(t.Quantities(), d) + after
                 && halves == before + (OfDimension(t1.Quantities(), d) + OfDimension(t2.Quantities(), d)) + after
  {
    hide Stretch.Quantities, FlatSegment, SplitStretch, CollectFrom, OfDimension, Collect, HasFlat;
    var charged := HasFlat(Collect(pre));
    var (one, two) := (CollectFrom(charged, [t]), CollectFrom(charged, [t1, t2]));
    CollectInParts(pre, [t]);
    CollectInParts(pre, [t1, t2]);
    CollectInParts(pre + [t], post);
    CollectInParts(pre + [t1, t2], post);
    CollectOne(charged, t);
    CollectHalves(charged, t, t1, t2);
    FlatOfConcat(Collect(pre), one);
    FlatOfConcat(Collect(pre), two);
    var rest := CollectFrom(HasFlat(Collect(pre + [t])), post);
    before, after := OfDimension(Collect(pre), d), OfDimension(rest, d);
    Parts(Collect(pre) + one, rest, d);
    Parts(Collect(pre), one, d);
    Parts(Collect(pre) + two, rest, d);
    Parts(Collect(pre), two, d);
    MiddleOfHalves(charged, t, t1, t2, d);
  }

  /** Which time-based dimension is quantised does not depend on how a period is split. */
  lemma SameQuantisedTime(pre: seq<Stretch>, t: Stretch, t1: Stretch, t2: Stretch, post: seq<Stretch>)
    requires SplitStretch(t, t1, t2)
    ensures QuantisedTime(Collect(pre + [t] + post)) == QuantisedTime(Collect(pre + [t1, t2] + post))
  {
    hide Stretch.Quantities, SplitStretch, Collect, OfDimension, SplitPair;
    forall d | d in [Time, ParkingTime]
      ensures OfDimension(Collect(pre + [t] + post), d) == [] <==> OfDimension(Collect(pre + [t1, t2] + post), d) == []
    {
      var before, after := AroundTheSplit(pre, t, t1, t2, post, d);
      HalvesOfQuantities(t, t1, t2, d);
    }
    assert Time in [Time, ParkingTime] && ParkingTime in [Time, ParkingTime];
  }

  lemma HalvesOfQuantities(t: Stretch, t1: Stretch, t2: Stretch, d: Dimension)
    requires SplitStretch(t, t1, t2)
    ensures SplitList(OfDimension(t.Quantities(), d), OfDimension(t1.Quantities(), d), OfDimension(t2.Quantities(), d))
  {
    hide QuantitySegments, OfDimension, SplitStretch;
    QuantitiesOfHalves(t, t1, t2, 4, d);
    forall s: Stretch
      ensures PeriodQuantities(s.period)[..4] == PeriodQuantities(s.period)
    {
    }
  }

  /**
   * Splitting one period of a planned session, every lookup finding the same component, keeps
   * every measured and billed quantity and moves each dimension's cost by at most `slack` for
   * each segment split.
   */
  lemma SplittingAStretch(policy: PricingPolicy, pre: seq<Stretch>, t: Stretch, t1: Stretch, t2: Stretch,
                          post: seq<Stretch>, d: Dimension, slack: real)
    requires SplitStretch(t, t1, t2) && SplitsWithin(policy, t, d, slack)
    ensures SameDimension(policy, Collect(pre + [t] + post), Collect(pre + [t1, t2] + post), d,
                          Times(|OfDimension(t.Quantities(), d)|, slack))
  {
    hide Stretch.Quantities, SplitStretch, Collect, OfDimension, QuantisedTime, BilledFor, CostOf, SplitSlack, Adjusted;
    var whole := Collect(pre + [t] + post);
    var before, after := AroundTheSplit(pre, t, t1, t2, post, d);
    SameQuantisedTime(pre, t, t1, t2, post);
    HalvesOfQuantities(t, t1, t2, d);
    if !d.Flat? {
      DimensionSplit(policy, d, before, OfDimension(t.Quantities(), d), OfDimension(t1.Quantities(), d),
                     OfDimension(t2.Quantities(), d), after, QuantisedTime(whole), slack);
    }
  }

  /** The session with period `j` replaced by two. */
  function SplitSession(session: PricedSession, j: nat, p1: PricedPeriod, p2: PricedPeriod): PricedSession
    requires j < |session.periods|
  {
    session.(periods := session.periods[..j] + [p1, p2] + session.periods[j + 1..])
  }

  /** The energy charged before any later period is what it was. */
  lemma EnergyBeforeSplit(session: PricedSession, j: nat, p1: PricedPeriod, p2: PricedPeriod, i: nat)
    requires j < |session.periods| && SplitPeriod(session.periods[j], p1, p2)
    requires j < i <= |session.periods|
    ensures SplitSession(session, j, p1, p2).EnergyBefore(i + 1) == session.EnergyBefore(i)
  {
    var (ps, qs) := (session.periods, SplitSession(session, j, p1, p2).periods);
    assert ps[..i] == ps[..j] + [ps[j]] + ps[j + 1..i];
    assert qs[..i + 1] == ps[..j] + [p1, p2] + ps[j + 1..i];
    SumConcat(ps[..j] + [ps[j]], ps[j + 1..i], EnergyKwh);
    SumConcat(ps[..j] + [p1, p2], ps[j + 1..i], EnergyKwh);
    SumConcat(ps[..j], [ps[j]], EnergyKwh);
    SumConcat(ps[..j], [p1, p2], EnergyKwh);
    SumOne(ps[j], EnergyKwh);
    SumOne(p1, EnergyKwh);
    SumAppend([p1], p2, EnergyKwh);
    assert [p1] + [p2] == [p1, p2];
  }

  /** Periods before the split are planned as before. */
  lemma PlansBeforeSplit(session: PricedSession, tariffs: seq<Tariff>, j: nat, p1: PricedPeriod, p2: PricedPeriod,
      i: nat)
    requires j < |session.periods| && SplitPeriod(session.periods[j], p1, p2) && i < j
    ensures PlanOf(SplitSession(session, j, p1, p2), tariffs, i) == PlanOf(session, tariffs, i)
  {
    hide SelectByPreference, FirstWhere, SumBy;
    var split := SplitSession(session, j, p1, p2);
    assert split.periods[..i] == session.periods[..i];
    assert split.PeriodEnd(i) == session.PeriodEnd(i);
  }

  /** Periods after the split are planned as before, one place later. */
  lemma PlansAfterSplit(session: PricedSession, tariffs: seq<Tariff>, j: nat, p1: PricedPeriod, p2: PricedPeriod,
      i: nat)
    requires j < |session.periods| && SplitPeriod(session.periods[j], p1, p2) && j < i < |session.periods|
    ensures PlanOf(SplitSession(session, j, p1, p2), tariffs, i + 1) == PlanOf(session, tariffs, i)
  {
    hide SelectByPreference, FirstWhere, SumBy;
    var split := SplitSession(session, j, p1, p2);
    EnergyBeforeSplit(session, j, p1, p2, i);
    assert split.periods[i + 1] == session.periods[i];
    assert split.PeriodEnd(i + 1) == session.PeriodEnd(i);
  }

  /** The plan of the split session is the plan of the session with one stretch replaced by two. */
  lemma PlannedSplit(session: PricedSession, tariffs: seq<Tariff>, j: nat, p1: PricedPeriod, p2: PricedPeriod,
                     whole: seq<Stretch>, halves: seq<Stretch>)
    requires j < |session.periods| && SplitPeriod(session.periods[j], p1, p2)
    requires Planned(session, tariffs, |session.periods|) == Ok(whole)
    requires Planned(SplitSession(session, j, p1, p2), tariffs, |session.periods| + 1) == Ok(halves)
    ensures |whole| == |session.periods| && |halves| == |whole| + 1
    ensures whole == whole[..j] + [whole[j]] + whole[j + 1..]
    ensures halves == whole[..j] + [halves[j], halves[j + 1]] + whole[j + 1..]
  {
    hide PlanOf, Planned, SplitPeriod;
    var split := SplitSession(session, j, p1, p2);
    PlannedMeaning(session, tariffs, |session.periods|);
    PlannedMeaning(split, tariffs, |split.periods|);
    forall i | 0 <= i < j
      ensures halves[i] == whole[i]
    {
      PlansBeforeSplit(session, tariffs, j, p1, p2, i);
    }
    forall i | j < i < |whole|
      ensures halves[i + 1] == whole[i]
    {
      PlansAfterSplit(session, tariffs, j, p1, p2, i);
    }
    OneForTwo(whole, halves, j);
  }

  /** Two sequences that agree around one place, where the second has one element more. */
  lemma OneForTwo<T>(whole: seq<T>, halves: seq<T>, j: nat)
    requires j < |whole| && |halves| == |whole| + 1
    requires forall i :: 0 <= i < j ==> halves[i] == whole[i]
    requires forall i :: j < i < |whole| ==> halves[i + 1] == whole[i]
    ensures whole == whole[..j] + [whole[j]] + whole[j + 1..]
    ensures halves == whole[..j] + [halves[j], halves[j + 1]] + whole[j + 1..]
  {
    forall k | j + 2 <= k < |halves|
      ensures halves[k] == whole[j + 1..][k - j - 2]
    {
      assert halves[k - 1 + 1] == whole[k - 1];
    }
  }

  /**
   * Splitting a charging period in two, each non-zero quantity into non-zero parts and every
   * lookup finding the same component, keeps every measured and billed quantity of the session
   * and moves each dimension's cost by at most `slack` for each segment split: one component unit,
   * or, where the tariff takes tax out of its prices, what its rate and the strategy allow.
   */
  lemma SplittingAPeriod(policy: PricingPolicy, session: PricedSession, tariffs: seq<Tariff>, j: nat,
                         p1: PricedPeriod, p2: PricedPeriod, whole: seq<Stretch>, halves: seq<Stretch>,
                         d: Dimension, slack: real)
    requires j < |session.periods|
    requires Planned(session, tariffs, |session.periods|) == Ok(whole)
    requires Planned(SplitSession(session, j, p1, p2), tariffs, |session.periods| + 1) == Ok(halves)
    requires SplitPeriod(session.periods[j], p1, p2)
    requires SameLookups(whole[j], halves[j]) && SameLookups(whole[j], halves[j + 1])
    requires SplitsWithin(policy, whole[j], d, slack)
    ensures SameDimension(policy, Collect(whole), Collect(halves), d,
                          Times(|OfDimension(whole[j].Quantities(), d)|, slack))
  {
    hide SameLookups, SplitPeriod, SplitsWithin, SameDimension, Collect, Planned, PlanOf, OfDimension;
    PlannedSplit(session, tariffs, j, p1, p2, whole, halves);
    assert SplitStretch(whole[j], halves[j], halves[j + 1]) by {
      PlannedMeaning(session, tariffs, |session.periods|);
      PlannedMeaning(SplitSession(session, j, p1, p2), tariffs, |session.periods| + 1);
    }
    SplittingAStretch(policy, whole[..j], whole[j], halves[j], halves[j + 1], whole[j + 1..], d, slack);
  }
}
