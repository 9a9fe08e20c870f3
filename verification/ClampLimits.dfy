/**
 * The sums that `finish` and `present_taxes` of `src/tariffs/engine.rs` add without a check: the
 * clamped base and its tax, and the running sum of the tax lines. They stay in range where prices,
 * quantities and rates are not negative, and need not where prices are.
 */
module ClampLimits {
  import opened Wrappers
  import opened Decimals
  import opened Sums
  import opened Grouping
  import opened Policy
  import opened Tariffs
  import opened Input
  import opened Lookup
  import opened Breakdown
  import opened Selection
  import opened Segments
  import opened Quantise
  import opened TaxLines
  import opened Finish
  import opened Price
  import opened Gross
  import opened Range

  // ---------------------------------------------------------------------------------------
  // How far tax can exceed what it is charged on
  // ---------------------------------------------------------------------------------------

  /** Neither the cost nor the tax is below `-e`, and the tax is at most `e` above the cost. */
  predicate Covered(x: PricedSegment, e: real) {
    x.cost >= -e && x.tax >= -e && x.tax <= x.cost + e
  }

  /** The most block billing takes below zero. */
  const LOW := 0.0000000005

  /** How far a segment of a quantity of `-low` or more is covered. */
  function CoverSlack(policy: PricingPolicy, low: real): real {
    if low == 0.0 then policy.ComponentUnit() else 1002.0
  }

  /** Half of an amount is net at least, at a rate of 100 percent at most, give or take one unit. */
  lemma ContainedTaxWithin(policy: PricingPolicy, stated: real, divisor: real)
    requires IsComponent(policy, stated) && stated >= 0.0 && 1.0 <= divisor <= 2.0
    ensures var net := policy.RoundComponent(stated / divisor); stated - net <= net + policy.ComponentUnit()
  {
    hide Round, OnGrid;
    NetAtLeastHalf(policy.rounding, Pow10(policy.componentDecimals), stated, divisor);
  }

  lemma NetAtLeastHalf(rounding: Strategy, p: real, stated: real, divisor: real)
    requires p > 0.0 && OnGrid(p, stated) && stated >= 0.0 && 1.0 <= divisor <= 2.0
    ensures var net := Round(rounding, p, stated / divisor); stated - net <= net + 1.0 / p
  {
    var quotient := stated / divisor;
    var y := quotient * p;
    var n := RoundInt(rounding, y);
    RoundIntNeighbours(rounding, y);
    hide RoundInt;
    var a := (stated * p).Floor;
    AtLeastHalf(stated, divisor, quotient, p, a as real, y);
    HalfUnits(a, n, y);
    MostlyNet(p, a, n, stated);
    RoundAt(rounding, p, quotient, y);
  }

  lemma HalfUnits(a: int, n: int, y: real)
    requires 2.0 * y >= a as real && Abs(n as real - y) < 1.0
    ensures 2 * n + 1 >= a
  {
  }

  lemma AtLeastHalf(stated: real, divisor: real, quotient: real, p: real, units: real, y: real)
    requires stated >= 0.0 && 1.0 <= divisor <= 2.0 && p > 0.0 && quotient == stated / divisor
    requires units == stated * p && y == quotient * p
    ensures 2.0 * y >= units
  {
    DivOf(stated, quotient, divisor);
    QuotientNonNegative(stated, divisor);
    NonNegativeProduct(quotient, 2.0 - divisor);
    var over := 2.0 * quotient - stated;
    assert over >= 0.0 by {
      assert quotient * (2.0 - divisor) == 2.0 * quotient - stated;
    }
    NonNegativeProduct(over, p);
    assert over * p == 2.0 * y - units;
  }

  lemma QuotientNonNegative(x: real, d: real)
    requires x >= 0.0 && d > 0.0
    ensures x / d >= 0.0
  {
  }

  lemma MostlyNet(p: real, a: int, n: int, stated: real)
    requires p > 0.0 && stated * p == a as real && 2 * n + 1 >= a
    ensures stated - n as real / p <= n as real / p + 1.0 / p
  {
    var (net, u) := (n as real / p, 1.0 / p);
    DivOf(n as real, net, p);
    DivOf(1.0, u, p);
    var rest := 2.0 * net + u - stated;
    assert rest * p == 2.0 * (net * p) + u * p - stated * p;
    ScaleMonotone(0.0, rest, p);
  }

  /** A tax on top of an amount of zero or more is no more than it, at 100 percent at most. */
  lemma AddedTaxCovered(policy: PricingPolicy, stated: real, rate: real, basis: TaxBasis)
    requires IsComponent(policy, stated) && stated >= 0.0 && 0.0 <= rate <= 100.0 && (basis.Excluded? || basis.Mixed?)
    ensures 0.0 <= SplitTax(policy, stated, Some(rate), basis).tax <= stated
  {
    hide IsComponent, PricingPolicy.RoundComponent;
    ZeroIsExact(policy);
    ComponentIdentity(policy, 0.0);
    ComponentIdentity(policy, stated);
    NonNegativeProduct(stated, rate);
    NonNegativeProduct(stated, 100.0 - rate);
    forall share | share == stated * rate / 100.0
      ensures 0.0 <= policy.RoundComponent(share) <= stated
    {
      ComponentMonotone(policy, 0.0, share);
      ComponentMonotone(policy, share, stated);
    }
  }

  lemma SplitCovered(policy: PricingPolicy, stated: real, rate: Option<real>, basis: TaxBasis)
    requires IsComponent(policy, stated) && stated >= 0.0 && (rate.Some? ==> 0.0 <= rate.value <= 100.0)
    ensures var split := SplitTax(policy, stated, rate, basis);
            split.net >= 0.0 && 0.0 <= split.tax <= split.net + policy.ComponentUnit()
  {
    hide IsComponent, PricingPolicy.RoundComponent, PricingPolicy.ComponentUnit;
    if rate.Some? {
      if basis.Included? {
        IncludedNonNegative(policy, stated, rate);
        ContainedTaxWithin(policy, stated, 1.0 + rate.value / 100.0);
      } else if !basis.NoTax? {
        AddedTaxCovered(policy, stated, rate.value, basis);
      }
    }
  }

  lemma SegmentCovered(policy: PricingPolicy, s: Segment, low: real)
    requires Bounded(s, QUANTITY_MAX, 100.0) && PlainSegment(s, false) && s.priced.quantity >= -low
    requires low == 0.0 || low == LOW
    ensures Covered(Costed(policy, s), CoverSlack(policy, low))
    ensures low == 0.0 ==> Costed(policy, s).tax >= 0.0 && Costed(policy, s).cost >= 0.0
  {
    hide IsComponent, PricingPolicy.RoundComponent, PricingPolicy.RoundQuantity, SplitTax, Charge;
    var (stated, terms) := (Stated(policy, s.priced), s.priced);
    RoundedIsComponent(policy);
    UnitAtMostOne(policy);
    ChargeNotBelow(s.priced, low);
    if Charge(s.priced) >= 0.0 {
      StatedNonNegative(policy, s.priced);
      SplitCovered(policy, stated, terms.vat, terms.basis);
    } else {
      RoundedWithin(policy, Charge(s.priced), 500.0);
      SplitWithin(policy, stated, terms.vat, terms.basis);
    }
  }

  lemma UnitAtMostOne(policy: PricingPolicy)
    ensures policy.ComponentUnit() <= 1.0
  {
    DividedIsSmaller(1.0, Pow10(policy.componentDecimals));
  }

  lemma ChargeNotBelow(s: PricedSegment, low: real)
    requires 0.0 <= s.price <= MAX_MAGNITUDE && s.quantity >= -low && (low == 0.0 || low == LOW)
    ensures Charge(s) >= if low == 0.0 then 0.0 else -500.0
  {
    NonNegativeProduct(s.quantity + low, s.price);
    Distribute(s.quantity, low, s.price);
  }

  // ---------------------------------------------------------------------------------------
  // The totals of a session
  // ---------------------------------------------------------------------------------------

  /** Prices and quantities of zero or more, and rates of 0 to 100 percent. */
  predicate NothingNegative(session: PricedSession, tariffs: seq<Tariff>) {
    && (forall t :: t in tariffs ==> OrdinaryTerms(t) && PlainTerms(t, false))
    && (forall p :: p in session.periods ==> forall c :: c in PeriodQuantities(p) ==> c.quantity >= 0.0)
  }

  /** No quantity is billed below zero. */
  predicate AllMeasured(policy: PricingPolicy, session: PricedSession) {
    forall p :: p in session.periods ==> NeverBelow(policy.quantisation, 0.0, p)
  }

  /** How far below zero a quantity of the session may be billed. */
  function LowOf(policy: PricingPolicy, session: PricedSession): real {
    if AllMeasured(policy, session) then 0.0 else LOW
  }

  /** A session whose totals are looked at: it has a breakdown, and no more periods than fit. */
  predicate Modest(policy: PricingPolicy, session: PricedSession, tariffs: seq<Tariff>) {
    && |session.periods| <= PERIODS_MAX
    && Priced(policy, session, tariffs).Ok?
    && NothingNegative(session, tariffs)
  }

  lemma PlannedModest(policy: PricingPolicy, session: PricedSession, tariffs: seq<Tariff>)
    requires Modest(policy, session, tariffs)
    ensures CheckRange(session, tariffs) && Planned(session, tariffs, |session.periods|).Ok?
    ensures forall t :: t in tariffs ==> OrdinaryTerms(t) && PlainTerms(t, false)
    ensures SelectByPreference(Wanted(session), session.start, tariffs).Ok?
    ensures var tariff := LimitsTariff(session, tariffs);
            tariff in tariffs && PriceableLimit(tariff.minPrice) && PriceableLimit(tariff.maxPrice)
  {
    hide Planned, OrdinaryTerms, PlainTerms, SelectByPreference, Assemble, PriceableComponent, PriceablePeriod,
         PriceableLimit;
  }

  /** The tariff whose price limits bound the session. */
  function LimitsTariff(session: PricedSession, tariffs: seq<Tariff>): Tariff
    requires SelectByPreference(Wanted(session), session.start, tariffs).Ok?
  {
    SelectByPreference(Wanted(session), session.start, tariffs).value
  }

  /** Nothing a session measures is billed below `-LowOf`. */
  lemma LowEnough(policy: PricingPolicy, session: PricedSession, tariffs: seq<Tariff>, p: PricedPeriod)
    requires NothingNegative(session, tariffs) && p in session.periods
    ensures NeverBelow(policy.quantisation, LowOf(policy, session), p)
  {
    hide OrdinaryTerms, PlainTerms;
    if !AllMeasured(policy, session) {
      forall c | c in PeriodQuantities(p)
        ensures StaysAbove(policy.quantisation, LOW, c.quantity, c.dimension)
      {
        assert Unmeasured(policy.quantisation, c.dimension) <= LOW;
      }
    }
  }

  lemma SegmentsCovered(policy: PricingPolicy, session: PricedSession, tariffs: seq<Tariff>)
    requires Modest(policy, session, tariffs)
    ensures Planned(session, tariffs, |session.periods|).Ok?
    ensures forall x :: x in CostedOf(policy, session, tariffs) ==>
              && Covered(x, CoverSlack(policy, LowOf(policy, session)))
              && (AllMeasured(policy, session) ==> x.cost >= 0.0 && x.tax >= 0.0)
  {
    hide Planned, Collect, BilledSegments, DimensionsOf, TermsUpTo, PlainTerms, CheckRange, Bounded, PlainSegment,
         Costed, AllSegments, NothingNegative, Modest, NeverBelow, Covered, CoverSlack, LowOf, StaysAbove, AllMeasured;
    PlannedModest(policy, session, tariffs);
    var low := LowOf(policy, session);
    LowIsEither(policy, session);
    var stretches := Planned(session, tariffs, |session.periods|).value;
    var segments := Collect(stretches);
    var billed := BilledSegments(policy.quantisation, segments);
    CollectedAreBounded(session, tariffs, stretches, 100.0);
    BilledAreBounded(policy.quantisation, segments, 100.0);
    forall p | p in session.periods
      ensures NeverBelow(policy.quantisation, low, p)
    {
      LowEnough(policy, session, tariffs, p) by {
        ModestIsPlain(policy, session, tariffs);
      }
    }
    CollectedArePlain(policy.quantisation, low, session, tariffs, stretches, false);
    BilledArePlain(policy.quantisation, low, segments, false);
    CostedSegments(policy, segments);
    var costed := CostedAll(policy, billed);
    forall x | x in costed
      ensures Covered(x, CoverSlack(policy, low)) && (low == 0.0 ==> x.cost >= 0.0 && x.tax >= 0.0)
    {
      var i :| 0 <= i < |costed| && costed[i] == x;
      SegmentCovered(policy, billed[i], low);
    }
  }

  lemma LowIsEither(policy: PricingPolicy, session: PricedSession)
    ensures LowOf(policy, session) == if AllMeasured(policy, session) then 0.0 else LOW
  {
  }

  lemma ModestIsPlain(policy: PricingPolicy, session: PricedSession, tariffs: seq<Tariff>)
    requires Modest(policy, session, tariffs)
    ensures NothingNegative(session, tariffs)
  {
  }

  lemma {:induction false} SumsCovered(list: seq<PricedSegment>, e: real)
    requires forall x :: x in list ==> Covered(x, e)
    ensures var (cost, tax, slack) := (SumBy(list, Cost), SumBy(list, Tax), Times(|list|, e));
            cost >= -slack && tax >= -slack && tax <= cost + slack
  {
    if list == [] {
    } else {
      var n := |list| - 1;
      SumsCovered(list[..n], e);
      assert list[n] in list;
    }
  }

  /** What the session comes to before and after tax, before its limits and before any rounding to currency. */
  function DimensionsFor(policy: PricingPolicy, session: PricedSession, tariffs: seq<Tariff>): seq<DimensionCost>
    requires Planned(session, tariffs, |session.periods|).Ok?
  {
    DimensionsOf(policy, Collect(Planned(session, tariffs, |session.periods|).value))
  }

  /** More segments than a modest session has. */
  const SEGMENTS_MAX: nat := 4 * PERIODS_MAX + 1

  /** The raw tax exceeds the raw base, whatever its sign, by no more than a slack a segment. */
  lemma RawTotalsCovered(policy: PricingPolicy, session: PricedSession, tariffs: seq<Tariff>)
    requires Modest(policy, session, tariffs)
    ensures Planned(session, tariffs, |session.periods|).Ok?
    ensures var dimensions := DimensionsFor(policy, session, tariffs);
            var (rawExcl, rawVat) := (RawExcl(dimensions), RawVat(dimensions));
            && Abs(rawVat) <= Abs(rawExcl) + Times(SEGMENTS_MAX, CoverSlack(policy, LowOf(policy, session)))
            && IsComponent(policy, rawExcl) && Abs(rawExcl) <= SUM_MAX && Abs(rawVat) <= SUM_MAX
            && (AllMeasured(policy, session) ==> rawExcl >= 0.0 && rawVat >= 0.0)
  {
    hide Planned, Collect, DimensionsOf, Modest, Covered, CoverSlack, LowOf, AllMeasured, OrdinaryTerms, PlainTerms,
         CheckRange, AllSegments, IsComponent;
    PlannedModest(policy, session, tariffs);
    assert |session.periods| <= PERIODS_MAX by {
      FewPeriods(policy, session, tariffs);
    }
    var e := CoverSlack(policy, LowOf(policy, session));
    SlackNonNegative(policy, LowOf(policy, session));
    var segments := Collect(Planned(session, tariffs, |session.periods|).value);
    var costed := CostedOf(policy, session, tariffs);
    SegmentsCovered(policy, session, tariffs);
    SumsCovered(costed, e);
    RawExclIsCost(policy, segments);
    CostedAreModerate(policy, session, tariffs);
    SumsFit(costed);
    TimesMonotone(|costed|, SEGMENTS_MAX, e);
    RawExclIsComponent(policy, segments);
    if AllMeasured(policy, session) {
      SumNonNegative(costed, Cost);
      SumNonNegative(costed, Tax);
    }
  }

  lemma FewPeriods(policy: PricingPolicy, session: PricedSession, tariffs: seq<Tariff>)
    requires Modest(policy, session, tariffs)
    ensures |session.periods| <= PERIODS_MAX
  {
  }

  lemma SlackNonNegative(policy: PricingPolicy, low: real)
    ensures CoverSlack(policy, low) >= 0.0
  {
  }

  lemma RawExclIsComponent(policy: PricingPolicy, segments: seq<Segment>)
    ensures IsComponent(policy, RawExcl(DimensionsOf(policy, segments)))
  {
    hide BilledSegments, DimensionsOf, Costed, AllSegments, OnGrid;
    var billed := BilledSegments(policy.quantisation, segments);
    var costed := AllSegments(DimensionsOf(policy, segments));
    RawExclIsCost(policy, segments);
    CostedSegments(policy, segments);
    forall x | x in costed
      ensures OnGrid(Pow10(policy.componentDecimals), Cost(x))
    {
      var i :| 0 <= i < |costed| && costed[i] == x;
      CostedIsComponent(policy, billed[i]);
    }
    SumOnGrid(costed, Cost, Pow10(policy.componentDecimals));
  }

  // ---------------------------------------------------------------------------------------
  // The one sum a price limit adds
  // ---------------------------------------------------------------------------------------

  /** The tax on a clamped base and the base itself, added without a check. */
  function ClampedSum(policy: PricingPolicy, tariff: Tariff, rawExcl: real, rawVat: real): real {
    ExclTotal(policy, tariff, rawExcl) + ScaledVat(rawExcl, rawVat, BaseRatio(policy, tariff, rawExcl, rawVat))
  }

  /** Whether it is added: a limit decided the total and names no amount after tax. */
  predicate AddsClampedSum(policy: PricingPolicy, tariff: Tariff, rawExcl: real, rawVat: real) {
    var limit := LimitOf(policy, tariff, rawExcl, rawVat);
    limit.Some? && !BoundedAfterTax(tariff, limit.value)
  }

  /** The clamped base is then one of the two pre-tax limits. */
  lemma ClampedBase(policy: PricingPolicy, tariff: Tariff, rawExcl: real, rawVat: real)
    requires AddsClampedSum(policy, tariff, rawExcl, rawVat)
    requires PriceableLimit(tariff.minPrice) && PriceableLimit(tariff.maxPrice)
    ensures Abs(ExclTotal(policy, tariff, rawExcl)) <= MAX_MAGNITUDE + 1.0
  {
    hide PricingPolicy.RoundCurrency;
    if LimitOf(policy, tariff, rawExcl, rawVat) == Some(Maximum) {
      MaximumAlone(policy, tariff, rawExcl, rawVat);
      LimitWithin(policy, tariff.maxPrice.value.beforeTaxes);
    } else {
      MinimumAlone(policy, tariff, rawExcl, rawVat);
      LimitWithin(policy, tariff.minPrice.value.beforeTaxes);
    }
  }

  /** A minimum that decides the total and names no after-tax bound. */
  lemma MinimumAlone(policy: PricingPolicy, tariff: Tariff, rawExcl: real, rawVat: real)
    requires LimitOf(policy, tariff, rawExcl, rawVat) == Some(Minimum) && AfterBound(tariff.minPrice).None?
    ensures tariff.minPrice.Some?
    ensures ExclTotal(policy, tariff, rawExcl) == policy.RoundCurrency(tariff.minPrice.value.beforeTaxes)
  {
    hide PricingPolicy.RoundCurrency, Raised, Lowered, IsCurrency;
    var raised := Raised(policy, policy.RoundCurrency(rawExcl), BeforeBound(tariff.minPrice));
    RaisedIsClamp(policy, rawExcl, BeforeBound(tariff.minPrice));
    LoweredIsClamp(policy, raised, BeforeBound(tariff.maxPrice));
  }

  lemma LimitWithin(policy: PricingPolicy, x: real)
    requires Priceable(x)
    ensures Abs(policy.RoundCurrency(x)) <= MAX_MAGNITUDE + 1.0
  {
    hide PricingPolicy.RoundCurrency;
    CurrencyError(policy, x);
    SlackAtMostOne(policy);
  }

  lemma SlackAtMostOne(policy: PricingPolicy)
    ensures 0.0 <= Slack(policy) <= 1.0
  {
    DividedIsSmaller(1.0, Pow10(policy.currencyDecimals));
    DividedIsSmaller(0.5, Pow10(policy.currencyDecimals));
  }

  /** A share of the base, when the raw base is a unit at least and the raw tax exceeds it by `slack` at most. */
  lemma ScaledWithin(total: real, rawExcl: real, rawVat: real, slack: real, p: real)
    requires p > 0.0 && slack >= 0.0 && rawExcl != 0.0 && Abs(rawExcl) * p >= 1.0
    requires Abs(rawVat) <= Abs(rawExcl) + slack
    ensures Abs(rawVat * (total / rawExcl)) <= Abs(total) * (1.0 + slack * p)
  {
    var ratio := total / rawExcl;
    AbsRatio(total, rawExcl, ratio);
    AbsProduct(rawVat, ratio);
    ShareWithinBase(Abs(rawExcl), Abs(rawVat), slack, Abs(ratio), Abs(total), p);
  }

  lemma AbsProduct(x: real, y: real)
    ensures Abs(x * y) == Abs(x) * Abs(y)
  {
  }

  lemma ShareWithinBase(base: real, tax: real, slack: real, q: real, t: real, p: real)
    requires tax <= base + slack && slack >= 0.0 && q >= 0.0 && t == q * base && base * p >= 1.0
    ensures tax * q <= t * (1.0 + slack * p)
  {
    TaxTimes(base, tax, slack, q, t);
    RatioWithin(base, q, t, p);
    SlackTimes(slack, q, t, p);
  }

  lemma AbsRatio(x: real, d: real, q: real)
    requires d != 0.0 && q == x / d
    ensures Abs(x) == Abs(q) * Abs(d)
  {
    assert x == q * d;
    AbsProduct(q, d);
  }

  lemma TaxTimes(base: real, tax: real, slack: real, q: real, t: real)
    requires tax <= base + slack && q >= 0.0 && t == q * base
    ensures tax * q <= t + slack * q
  {
    NonNegativeProduct(base + slack - tax, q);
    Distribute(base + slack, tax, q);
    Distribute(base, slack, q);
  }

  lemma RatioWithin(base: real, q: real, t: real, p: real)
    requires q >= 0.0 && t == q * base && base * p >= 1.0
    ensures q <= t * p
  {
    NonNegativeProduct(q, base * p - 1.0);
    assert q * (base * p - 1.0) == (q * base) * p - q;
  }

  lemma SlackTimes(slack: real, q: real, t: real, p: real)
    requires slack >= 0.0 && q <= t * p
    ensures t + slack * q <= t * (1.0 + slack * p)
  {
    NonNegativeProduct(slack, t * p - q);
    assert slack * (t * p - q) == t * (slack * p) - slack * q;
    assert t * (1.0 + slack * p) == t + t * (slack * p);
  }

  /** An amount at component precision is a unit at least, if it is not nothing. */
  lemma UnitAtLeast(p: real, x: real)
    requires p > 0.0 && OnGrid(p, x) && x != 0.0
    ensures Abs(x) * p >= 1.0
  {
    var n := (x * p).Floor;
    var y := Abs(x) * p;
    SignsOut(x, p);
    PositiveProduct(Abs(x), p);
    assert y == n as real || y == (-n) as real;
  }

  lemma PositiveProduct(x: real, y: real)
    requires x > 0.0 && y > 0.0
    ensures x * y > 0.0
  {
  }

  /** What a modest session adds to a clamped base, and what a slack a segment comes to in it. */
  lemma ClampedSumWithin(policy: PricingPolicy, tariff: Tariff, rawExcl: real, rawVat: real, slack: real)
    requires AddsClampedSum(policy, tariff, rawExcl, rawVat)
    requires PriceableLimit(tariff.minPrice) && PriceableLimit(tariff.maxPrice)
    requires IsComponent(policy, rawExcl) && slack >= 0.0 && Abs(rawVat) <= Abs(rawExcl) + slack
    ensures var (scaled, base) := (ScaledVat(rawExcl, rawVat, BaseRatio(policy, tariff, rawExcl, rawVat)),
                                   MAX_MAGNITUDE + 1.0);
            var most := base * (1.0 + slack * Pow10(policy.componentDecimals));
            Abs(scaled) <= most && Abs(ClampedSum(policy, tariff, rawExcl, rawVat)) <= base + most
  {
    hide ExclTotal, LimitOf, OnGrid;
    var p := Pow10(policy.componentDecimals);
    var total := ExclTotal(policy, tariff, rawExcl);
    var factor := 1.0 + slack * p;
    NonNegativeProduct(slack, p);
    ClampedBase(policy, tariff, rawExcl, rawVat);
    if rawExcl != 0.0 {
      UnitAtLeast(p, rawExcl);
      ScaledWithin(total, rawExcl, rawVat, slack, p);
    } else {
      NonNegativeProduct(Abs(total), factor);
    }
    NonNegativeProduct(MAX_MAGNITUDE + 1.0 - Abs(total), factor);
    Distribute(MAX_MAGNITUDE + 1.0, Abs(total), factor);
  }

  /** `n` slacks of one unit are `n` units. */
  lemma UnitSlack(n: nat, p: real)
    requires p > 0.0
    ensures Times(n, 1.0 / p) * p == n as real
  {
    var u := 1.0 / p;
    TimesProduct(n, u);
    DivOf(1.0, u, p);
    assert (n as real * u) * p == n as real * (u * p);
  }

  lemma {:induction false} Pow10Monotone(m: nat, n: nat)
    requires m <= n
    ensures Pow10(m) <= Pow10(n)
  {
    if m == n {
    } else {
      Pow10Monotone(m, n - 1);
    }
  }

  lemma NineDecimals(dp: nat)
    requires dp <= 9
    ensures Pow10(dp) <= 1000000000.0
  {
    Pow10Monotone(dp, 9);
    assert Pow10(3) == 1000.0;
    assert Pow10(6) == 1000000.0;
  }

  /** The factor a slack a segment amounts to: the number of segments, or some 4e16. */
  lemma FactorOfSlack(policy: PricingPolicy, low: real)
    requires low == 0.0 || (low == LOW && policy.componentDecimals <= 9)
    ensures Times(SEGMENTS_MAX, CoverSlack(policy, low)) * Pow10(policy.componentDecimals)
            <= if low == 0.0 then SEGMENTS_MAX as real else 40000000000000000.0
  {
    var p := Pow10(policy.componentDecimals);
    if low == 0.0 {
      UnitSlack(SEGMENTS_MAX, p);
    } else {
      NineDecimals(policy.componentDecimals);
      TimesProduct(SEGMENTS_MAX, 1002.0);
    }
  }

  /**
   * A price limit that moves the base of a session without negative prices or quantities, at rates
   * of 0 to 100 percent, adds a sum that is in range: below 4e16 where no quantity is billed below
   * zero, and whatever the quantities with up to nine component decimals.
   */
  lemma ClampedSumFits(policy: PricingPolicy, session: PricedSession, tariffs: seq<Tariff>)
    requires Modest(policy, session, tariffs)
    requires policy.componentDecimals <= 9 || AllMeasured(policy, session)
    ensures Planned(session, tariffs, |session.periods|).Ok?
    ensures SelectByPreference(Wanted(session), session.start, tariffs).Ok?
    ensures var dimensions := DimensionsFor(policy, session, tariffs);
            var (tariff, rawExcl, rawVat) := (LimitsTariff(session, tariffs), RawExcl(dimensions), RawVat(dimensions));
            AddsClampedSum(policy, tariff, rawExcl, rawVat) ==>
              && Fits(ScaledVat(rawExcl, rawVat, BaseRatio(policy, tariff, rawExcl, rawVat)))
              && Fits(ClampedSum(policy, tariff, rawExcl, rawVat))
              && (AllMeasured(policy, session) ==>
                    Abs(ClampedSum(policy, tariff, rawExcl, rawVat)) <= 40000.0 * MAX_MAGNITUDE)
  {
    hide Modest, AllMeasured, CheckRange, Planned, SelectByPreference, DimensionsFor, RawExcl, RawVat, LimitsTariff,
         AddsClampedSum, ScaledVat, BaseRatio, ClampedSum, IsComponent, CoverSlack, Times, Fits, PriceableLimit;
    PlannedModest(policy, session, tariffs);
    RawTotalsCovered(policy, session, tariffs);
    var low := LowOf(policy, session);
    SlackNonNegative(policy, low);
    TimesNonNegative(SEGMENTS_MAX, CoverSlack(policy, low));
    FactorOfSlack(policy, low);
    var dimensions := DimensionsFor(policy, session, tariffs);
    var (tariff, rawExcl, rawVat) := (LimitsTariff(session, tariffs), RawExcl(dimensions), RawVat(dimensions));
    if AddsClampedSum(policy, tariff, rawExcl, rawVat) {
      ClampedSumInRange(policy, tariff, rawExcl, rawVat, Times(SEGMENTS_MAX, CoverSlack(policy, low)), low);
    }
  }

  lemma ClampedSumInRange(policy: PricingPolicy, tariff: Tariff, rawExcl: real, rawVat: real, slack: real, low: real)
    requires AddsClampedSum(policy, tariff, rawExcl, rawVat)
    requires PriceableLimit(tariff.minPrice) && PriceableLimit(tariff.maxPrice)
    requires IsComponent(policy, rawExcl) && slack >= 0.0 && Abs(rawVat) <= Abs(rawExcl) + slack
    requires slack * Pow10(policy.componentDecimals) <= if low == 0.0 then SEGMENTS_MAX as real else 40000000000000000.0
    ensures Fits(ScaledVat(rawExcl, rawVat, BaseRatio(policy, tariff, rawExcl, rawVat)))
    ensures Fits(ClampedSum(policy, tariff, rawExcl, rawVat))
    ensures low == 0.0 ==> Abs(ClampedSum(policy, tariff, rawExcl, rawVat)) <= 40000.0 * MAX_MAGNITUDE
  {
    hide AddsClampedSum, ScaledVat, BaseRatio, ClampedSum, IsComponent, PriceableLimit;
    ClampedSumWithin(policy, tariff, rawExcl, rawVat, slack);
    var factor := slack * Pow10(policy.componentDecimals);
    Distribute(1.0, factor, MAX_MAGNITUDE + 1.0);
  }

  lemma TimesNonNegative(n: nat, d: real)
    requires d >= 0.0
    ensures Times(n, d) >= 0.0
  {
    TimesProduct(n, d);
    NonNegativeProduct(n as real, d);
  }

  // ---------------------------------------------------------------------------------------
  // The running sum of the tax lines
  // ---------------------------------------------------------------------------------------

  lemma SharesNonNegative(lines: seq<TaxLine>, owed: real, current: real)
    requires current > 0.0 && owed >= 0.0 && forall t :: t in lines ==> t.amount >= 0.0
    ensures forall t :: t in ExactShares(lines, owed, current) ==> t.amount >= 0.0
  {
    var exact := ExactShares(lines, owed, current);
    forall t | t in exact
      ensures t.amount >= 0.0
    {
      var i :| 0 <= i < |lines| && exact[i] == t;
      assert lines[i] in lines;
      var product := lines[i].amount * owed;
      NonNegativeProduct(lines[i].amount, owed);
      QuotientNonNegative(product, current);
    }
  }

  /**
   * While tax lines of zero or more are apportioned, the running sum never leaves what is owed by
   * more than one rounding for each line so far.
   */
  lemma RunningSumStaysNearOwed(policy: PricingPolicy, lines: seq<TaxLine>, owed: real, ratio: real, k: nat)
    requires lines != [] && owed >= 0.0 && SumBy(lines, Amount) > 0.0 && forall t :: t in lines ==> t.amount >= 0.0
    requires k < |lines|
    ensures var shares := RoundedShares(policy, lines, |lines| - 1, owed, SumBy(lines, Amount), ratio);
            -Times(k, Slack(policy)) <= SumBy(shares[..k], Amount) <= owed + Times(k, Slack(policy))
  {
    hide Slack, Share, RoundedShares, PricingPolicy.RoundCurrency, SumBy;
    var current := SumBy(lines, Amount);
    var exact := ExactShares(lines, owed, current);
    var shares := RoundedShares(policy, lines, |lines| - 1, owed, current, ratio);
    SharesNear(policy, lines, owed, current, ratio);
    ExactSharesOwed(lines, owed);
    SharesNonNegative(lines, owed, current);
    assert exact == exact[..k] + exact[k..];
    SumConcat(exact[..k], exact[k..], Amount);
    SumNonNegative(exact[..k], Amount);
    SumNonNegative(exact[k..], Amount);
    SumWithin(shares[..k], Amount, exact[..k], Amount, Slack(policy));
  }

  lemma {:induction false} InsertCount(lines: seq<TaxLine>, t: TaxLine)
    ensures |Insert(lines, t)| == |lines| + 1
  {
    if lines == [] {
    } else {
      InsertCount(lines[..|lines| - 1], t);
    }
  }

  lemma {:induction false} SortCount(lines: seq<TaxLine>)
    ensures |SortByRate(lines)| == |lines|
  {
    if lines == [] {
    } else {
      var n := |lines| - 1;
      SortCount(lines[..n]);
      InsertCount(SortByRate(lines[..n]), lines[n]);
    }
  }

  lemma {:induction false} SeenCount<T, K>(s: seq<T>, key: T -> K)
    ensures |FirstSeen(s, key)| <= |s|
  {
    if s == [] {
    } else {
      SeenCount(s[..|s| - 1], key);
    }
  }

  /** There are no more lines than segments, and none is negative when no segment's tax is. */
  lemma LinesOfCovered(segments: seq<PricedSegment>)
    requires forall s :: s in segments ==> s.tax >= 0.0
    ensures |RawLines(segments)| <= |segments| && forall t :: t in RawLines(segments) ==> t.amount >= 0.0
  {
    hide Loud, Retain, SortByRate, FirstSeen, KeySum;
    var loud := Loud(segments);
    LoudIsPart(segments);
    SeenCount(loud, Rate);
    RetainIsPart(LinesByRate(loud));
    SortCount(Retain(LinesByRate(loud)));
    SortIsSorted(Retain(LinesByRate(loud)));
    forall t | t in LinesByRate(loud)
      ensures t.amount >= 0.0
    {
      var i :| 0 <= i < |FirstSeen(loud, Rate)| && t == LineOf(loud, FirstSeen(loud, Rate)[i]);
      GroupNonNegative(loud, FirstSeen(loud, Rate)[i]);
    }
  }

  lemma GroupNonNegative(loud: seq<PricedSegment>, rate: Option<real>)
    requires forall s :: s in loud ==> s.tax >= 0.0
    ensures KeySum(loud, Rate, Tax, rate) >= 0.0
  {
    WithKeySound(loud, Rate, rate);
    SumNonNegative(WithKey(loud, Rate, rate), Tax);
  }

  /** The tax owed is bounded by what the session comes to and the limits, when nothing is negative. */
  lemma OwedWithin(policy: PricingPolicy, tariff: Tariff, rawExcl: real, rawVat: real)
    requires PriceableLimit(tariff.minPrice) && PriceableLimit(tariff.maxPrice)
    requires 0.0 <= rawExcl <= SUM_MAX && 0.0 <= rawVat <= SUM_MAX
    requires AddsClampedSum(policy, tariff, rawExcl, rawVat) ==>
               Abs(ClampedSum(policy, tariff, rawExcl, rawVat)) <= SUM_MAX
    ensures 0.0 <= InclTotal(policy, tariff, rawExcl, rawVat) - ExclTotal(policy, tariff, rawExcl)
                <= 2.0 * SUM_MAX + 2.0 * MAX_MAGNITUDE + 3.0
  {
    hide PricingPolicy.RoundCurrency, LimitOf, BaseRatio, ScaledVat, Slack, Raised, Lowered;
    SlackAtMostOne(policy);
    CurrencyError(policy, ClampedSum(policy, tariff, rawExcl, rawVat));
    BaseNotBelow(policy, tariff, rawExcl);
    BoundedNotAbove(policy, tariff, rawExcl + rawVat);
  }

  lemma BaseNotBelow(policy: PricingPolicy, tariff: Tariff, rawExcl: real)
    requires PriceableLimit(tariff.minPrice) && PriceableLimit(tariff.maxPrice) && rawExcl >= 0.0
    ensures ExclTotal(policy, tariff, rawExcl) >= -MAX_MAGNITUDE - 1.0
  {
    hide PricingPolicy.RoundCurrency, Slack;
    SlackAtMostOne(policy);
    CurrencyError(policy, rawExcl);
    if tariff.maxPrice.Some? {
      LimitWithin(policy, tariff.maxPrice.value.beforeTaxes);
    }
  }

  lemma BoundedNotAbove(policy: PricingPolicy, tariff: Tariff, raw: real)
    requires PriceableLimit(tariff.minPrice) && PriceableLimit(tariff.maxPrice) && raw >= 0.0
    ensures BoundedIncl(policy, tariff, raw) <= raw + MAX_MAGNITUDE + 2.0
  {
    hide PricingPolicy.RoundCurrency, Slack;
    SlackAtMostOne(policy);
    CurrencyError(policy, raw);
    if AfterBound(tariff.minPrice).Some? {
      LimitWithin(policy, tariff.minPrice.value.afterTaxes.value);
    }
  }

  /** The tax owed on such a session, before it is apportioned. */
  function OwedOn(policy: PricingPolicy, session: PricedSession, tariffs: seq<Tariff>): real
    requires Planned(session, tariffs, |session.periods|).Ok?
    requires SelectByPreference(Wanted(session), session.start, tariffs).Ok?
  {
    var dimensions := DimensionsFor(policy, session, tariffs);
    var (tariff, rawExcl, rawVat) := (LimitsTariff(session, tariffs), RawExcl(dimensions), RawVat(dimensions));
    InclTotal(policy, tariff, rawExcl, rawVat) - ExclTotal(policy, tariff, rawExcl)
  }

  lemma OwedOnModest(policy: PricingPolicy, session: PricedSession, tariffs: seq<Tariff>)
    requires Modest(policy, session, tariffs) && AllMeasured(policy, session)
    ensures Planned(session, tariffs, |session.periods|).Ok?
    ensures SelectByPreference(Wanted(session), session.start, tariffs).Ok?
    ensures 0.0 <= OwedOn(policy, session, tariffs) <= 2.0 * SUM_MAX + 2.0 * MAX_MAGNITUDE + 3.0
  {
    hide Modest, AllMeasured, CheckRange, Planned, SelectByPreference, RawExcl, RawVat, LimitsTariff, AddsClampedSum,
         ScaledVat, BaseRatio, ClampedSum, IsComponent, CoverSlack, Times, InclTotal, ExclTotal, DimensionsFor, LowOf;
    PlannedModest(policy, session, tariffs);
    RawTotalsCovered(policy, session, tariffs);
    ClampedSumFits(policy, session, tariffs);
    var dimensions := DimensionsFor(policy, session, tariffs);
    OwedWithin(policy, LimitsTariff(session, tariffs), RawExcl(dimensions), RawVat(dimensions));
  }

  lemma LinesOfModest(policy: PricingPolicy, session: PricedSession, tariffs: seq<Tariff>)
    requires Modest(policy, session, tariffs) && AllMeasured(policy, session)
    ensures Planned(session, tariffs, |session.periods|).Ok?
    ensures var lines := RawLines(CostedOf(policy, session, tariffs));
            |lines| <= SEGMENTS_MAX && forall t :: t in lines ==> t.amount >= 0.0
  {
    hide Modest, AllMeasured, CheckRange, Planned, SelectByPreference, RawLines, CostedOf, Covered, LimitsTariff;
    PlannedModest(policy, session, tariffs);
    FewPeriods(policy, session, tariffs);
    SegmentsCovered(policy, session, tariffs);
    CostedAreModerate(policy, session, tariffs);
    LinesOfCovered(CostedOf(policy, session, tariffs));
  }

  /**
   * Where no quantity is billed below zero, every running sum of the tax lines of such a session,
   * and what is left for the last line, is in range.
   */
  lemma RunningSumsFit(policy: PricingPolicy, session: PricedSession, tariffs: seq<Tariff>, k: nat, ratio: real)
    requires Modest(policy, session, tariffs) && AllMeasured(policy, session)
    ensures Planned(session, tariffs, |session.periods|).Ok?
    ensures SelectByPreference(Wanted(session), session.start, tariffs).Ok?
    ensures var (lines, owed) := (RawLines(CostedOf(policy, session, tariffs)), OwedOn(policy, session, tariffs));
            k < |lines| && SumBy(lines, Amount) != 0.0 ==>
              var shares := RoundedShares(policy, lines, |lines| - 1, owed, SumBy(lines, Amount), ratio);
              Fits(SumBy(shares[..k], Amount)) && Fits(owed - SumBy(shares[..k], Amount))
  {
    hide Modest, AllMeasured, Planned, SelectByPreference, RoundedShares, RawLines, OwedOn, CostedOf, SumBy, Slack,
         Times;
    OwedOnModest(policy, session, tariffs);
    LinesOfModest(policy, session, tariffs);
    var (lines, owed) := (RawLines(CostedOf(policy, session, tariffs)), OwedOn(policy, session, tariffs));
    if k < |lines| && SumBy(lines, Amount) != 0.0 {
      SumNonNegative(lines, Amount);
      RunningSumStaysNearOwed(policy, lines, owed, ratio, k);
      SlackAtMostOne(policy);
      FewSlacks(k, Slack(policy));
    }
  }

  lemma FewSlacks(k: nat, slack: real)
    requires k <= SEGMENTS_MAX && 0.0 <= slack <= 1.0
    ensures 0.0 <= Times(k, slack) <= SEGMENTS_MAX as real
  {
    TimesProduct(k, slack);
    NonNegativeProduct(k as real, slack);
    NonNegativeProduct(k as real, 1.0 - slack);
    Distribute(1.0, slack, k as real);
  }

  // ---------------------------------------------------------------------------------------
  // A session whose clamped sum is out of range
  // ---------------------------------------------------------------------------------------

  /** Seventy-nine quadrillion of energy taxed at 100 percent. */
  const CHARGED := 79228162514264337.5935

  const PER_KWH := 79228.1625142643375935
  const PER_HOUR := -79228.1625142643365935

  /** Energy at 100 percent, an untaxed discount on time, and at least a trillion in all. */
  function DiscountTariff(): Tariff {
    Tariff("T", None, Some(PriceLimit(MAX_MAGNITUDE, None)), None,
           [TariffElement([PriceComponent(Energy, PER_KWH, Some(100.0), 0), PriceComponent(Time, PER_HOUR, None, 0)],
                          None)],
           No, None, None)
  }

  /** A trillion kilowatt-hours in a trillion hours. */
  function LongSession(): PricedSession {
    PricedSession(0, None, [PricedPeriod(0, MAX_MAGNITUDE, MAX_MAGNITUDE, 0.0, 0.0, None, None, None, None, None)],
                  (t: DateTime) => Some(LocalParts(0, 0, Monday)), None, false, false)
  }

  predicate LongSegment(s: Segment, d: Dimension, price: real, vat: Option<real>) {
    && s.dimension == d && s.stepSize == 0 && s.priced.quantity == MAX_MAGNITUDE && s.priced.price == price
    && s.priced.vat == vat && s.priced.basis.Excluded?
  }

  lemma LongCollected() returns (a: Segment, b: Segment)
    ensures Planned(LongSession(), [DiscountTariff()], 1).Ok?
    ensures Collect(Planned(LongSession(), [DiscountTariff()], 1).value) == [a, b]
    ensures LongSegment(a, Energy, PER_KWH, Some(100.0)) && LongSegment(b, Time, PER_HOUR, None)
  {
    var stretch := LongPlanned();
    hide Planned, Collect, LongSession, DiscountTariff, Stretch.Quantities, Stretch.FlatFee, LongSegment;
    a, b := LongQuantities(stretch);
    TwoOfAStretch(stretch, a, b);
  }

  lemma LongPlanned() returns (stretch: Stretch)
    ensures Planned(LongSession(), [DiscountTariff()], 1) == Ok([stretch])
    ensures stretch.period == LongSession().periods[0] && stretch.plan.tariff == DiscountTariff()
  {
    assert OnePeriodUnder(LongSession(), DiscountTariff());
    hide Planned;
    stretch := OnePeriodIsPlanned(LongSession(), DiscountTariff());
  }

  lemma TwoOfAStretch(stretch: Stretch, a: Segment, b: Segment)
    requires stretch.Quantities() == [a, b] && stretch.FlatFee().None?
    ensures Collect([stretch]) == [a, b]
  {
    hide Stretch.Quantities, Stretch.FlatFee;
    assert [stretch][..0] == [] && Collect([stretch][..0]) == [];
    assert [] + [a, b] + [] == [a, b];
  }

  lemma LongQuantities(stretch: Stretch) returns (a: Segment, b: Segment)
    requires stretch.period == LongSession().periods[0] && stretch.plan.tariff == DiscountTariff()
    ensures stretch.Quantities() == [a, b] && stretch.FlatFee().None?
    ensures LongSegment(a, Energy, PER_KWH, Some(100.0)) && LongSegment(b, Time, PER_HOUR, None)
  {
    var (tariff, ctx) := (stretch.plan.tariff, stretch.plan.context);
    var components := tariff.elements[0].components;
    assert FindInElement(components, Energy) == Some(0) && FindInElement(components, Flat).None?;
    assert FindInElement(components, Time) == Some(1);
    assert FindComponent(tariff, Energy, ctx.Reserving(false)) == Some(Found(components[0], 0, 0));
    assert FindComponent(tariff, Time, ctx.Reserving(false)) == Some(Found(components[1], 0, 1));
    assert forall reserving: bool :: FindComponent(tariff, Flat, ctx.Reserving(reserving)).None?;
    hide FindComponent;
    QuantitiesOneByOne(stretch);
    a := QuantitySegment(stretch.plan, stretch.period, PeriodQuantities(stretch.period)[0]).value;
    b := QuantitySegment(stretch.plan, stretch.period, PeriodQuantities(stretch.period)[1]).value;
    assert [a] + [b] + [] + [] == [a, b];
  }

  lemma LongBilled(a: Segment, b: Segment)
    requires a.dimension == Energy && a.stepSize == 0 && b.dimension == Time && b.stepSize == 0
    ensures BilledSegments(StepSize, [a, b]) == [a, b]
  {
    TwoGroups(a, b);
    AsMeasured(Energy, a, QuantisedTime([a, b]));
    AsMeasured(Time, b, QuantisedTime([a, b]));
    hide Adjusted, Groups, QuantisedTime;
    var (g, h, time) := (Group(Energy, [a]), Group(Time, [b]), QuantisedTime([a, b]));
    assert [g, h][..1] == [g] && [g][..0] == [];
    assert AllAdjusted(StepSize, [g], time) == [] + [a];
    assert [] + [a] + [b] == [a, b];
  }

  lemma TwoGroups(a: Segment, b: Segment)
    requires a.dimension == Energy && b.dimension == Time
    ensures Groups([a, b]) == [Group(Energy, [a]), Group(Time, [b])]
  {
    hide Groups;
    SingleGroup(a);
    GroupsStep([a], b, 1);
    assert [a] + [b] == [a, b] && [Group(Energy, [a])] + [Group(Time, [b])] == [Group(Energy, [a]), Group(Time, [b])];
  }

  lemma AsMeasured(d: Dimension, s: Segment, time: Option<Dimension>)
    requires s.stepSize == 0
    ensures Adjusted(StepSize, d, [s], time) == [s]
  {
    AddNothing([s]);
  }

  lemma TenThousandths(x: real, n: int)
    requires x * 10000.0 == n as real
    ensures DEFAULT.RoundComponent(x) == x
  {
    assert Pow10(4) == 10000.0;
    WholeAt(x * 10000.0, n);
    RoundIdentity(DEFAULT.rounding, 10000.0, x);
  }

  lemma LongCosts(a: Segment, b: Segment)
    requires LongSegment(a, Energy, PER_KWH, Some(100.0)) && LongSegment(b, Time, PER_HOUR, None)
    ensures Costed(DEFAULT, a).cost == CHARGED && Costed(DEFAULT, a).tax == CHARGED
    ensures Costed(DEFAULT, b).cost == 1.0 - CHARGED && Costed(DEFAULT, b).tax == 0.0
  {
    hide PricingPolicy.RoundComponent, PricingPolicy.RoundQuantity;
    assert Charge(a.priced) == CHARGED && Charge(b.priced) == 1.0 - CHARGED;
    TenThousandths(CHARGED, 792281625142643375935);
    TenThousandths(1.0 - CHARGED, -792281625142643365935);
    assert CHARGED * 100.0 / 100.0 == CHARGED;
  }

  /** What the session comes to: 1 before tax, and all of the tax on the energy. */
  lemma LongTotals()
    ensures Planned(LongSession(), [DiscountTariff()], 1).Ok?
    ensures var dimensions := DimensionsFor(DEFAULT, LongSession(), [DiscountTariff()]);
            RawExcl(dimensions) == 1.0 && RawVat(dimensions) == CHARGED
  {
    hide Planned, Collect, LongSession, DiscountTariff, LongSegment, DimensionsOf, BilledSegments, Costed;
    var a, b := LongCollected();
    var segments := [a, b];
    assert BilledSegments(StepSize, segments) == segments by {
      LongAsMeasured(a, b);
    }
    LongCosts(a, b);
    CostedSegments(DEFAULT, segments);
    RawExclIsCost(DEFAULT, segments);
    SumOfTwo(Costed(DEFAULT, a), Costed(DEFAULT, b), Cost);
    SumOfTwo(Costed(DEFAULT, a), Costed(DEFAULT, b), Tax);
    assert CostedAll(DEFAULT, [a, b]) == [Costed(DEFAULT, a), Costed(DEFAULT, b)];
    assert |LongSession().periods| == 1 by {
      OnePeriodLong();
    }
  }

  lemma LongAsMeasured(a: Segment, b: Segment)
    requires LongSegment(a, Energy, PER_KWH, Some(100.0)) && LongSegment(b, Time, PER_HOUR, None)
    ensures BilledSegments(StepSize, [a, b]) == [a, b]
  {
    LongBilled(a, b);
  }

  lemma OnePeriodLong()
    ensures |LongSession().periods| == 1
  {
  }

  lemma WholeIsCurrency(x: real, hundredths: int)
    requires x * 100.0 == hundredths as real
    ensures DEFAULT.RoundCurrency(x) == x
  {
    assert Pow10(2) == 100.0;
    WholeAt(x * 100.0, hundredths);
    CurrencyIdentity(DEFAULT, x);
  }

  /** Raising 1 to a trillion takes tax of 7.9e16 with it: in range itself, and not with the base. */
  lemma RaisedOutOfRange(tariff: Tariff)
    requires tariff.minPrice == Some(PriceLimit(MAX_MAGNITUDE, None)) && tariff.maxPrice.None?
    ensures AddsClampedSum(DEFAULT, tariff, 1.0, CHARGED)
    ensures Fits(ScaledVat(1.0, CHARGED, BaseRatio(DEFAULT, tariff, 1.0, CHARGED)))
    ensures !Fits(ClampedSum(DEFAULT, tariff, 1.0, CHARGED))
  {
    hide PricingPolicy.RoundCurrency;
    WholeIsCurrency(1.0, 100);
    WholeIsCurrency(MAX_MAGNITUDE, 100000000000000);
  }

  /**
   * Where a price is negative the sum need not be in range: an accepted session of a trillion
   * kilowatt-hours that comes to 1.00 before tax, after a discount that carries none, is raised to
   * a trillion. The scaled tax is in range, so the checked product gives it, and adding the base
   * is not.
   */
  lemma ClampedSumCanOverflow()
    ensures var (session, tariff) := (LongSession(), DiscountTariff());
            && CheckRange(session, [tariff]) && OrdinaryTerms(tariff)
            && Priced(DEFAULT, session, [tariff]).Ok?
            && Planned(session, [tariff], 1).Ok?
            && SelectByPreference(Wanted(session), session.start, [tariff]).Ok?
            && LimitsTariff(session, [tariff]) == tariff
            && var dimensions := DimensionsFor(DEFAULT, session, [tariff]);
            var (rawExcl, rawVat) := (RawExcl(dimensions), RawVat(dimensions));
            && AddsClampedSum(DEFAULT, tariff, rawExcl, rawVat)
            && Fits(ScaledVat(rawExcl, rawVat, BaseRatio(DEFAULT, tariff, rawExcl, rawVat)))
            && !Fits(ClampedSum(DEFAULT, tariff, rawExcl, rawVat))
  {
    LongIsAccepted();
    LongIsPriced();
    LongTotals();
    RaisedOutOfRange(DiscountTariff());
    hide *;
    OnePeriodLong();
  }

  lemma LongIsAccepted()
    ensures CheckRange(LongSession(), [DiscountTariff()]) && OrdinaryTerms(DiscountTariff())
  {
  }

  lemma LongIsPriced()
    ensures var (session, tariff) := (LongSession(), DiscountTariff());
            && Priced(DEFAULT, session, [tariff]).Ok?
            && SelectByPreference(Wanted(session), session.start, [tariff]) == Ok(tariff)
  {
    LongIsAccepted();
    assert OnePeriodUnder(LongSession(), DiscountTariff());
    assert [DiscountTariff()][0].IsActiveAt(0);
    hide CheckRange, Priced, SelectByPreference;
    OnePeriodIsPriced(DEFAULT, LongSession(), DiscountTariff());
  }
}
