/**
 * Arithmetic range: what a decimal of 96 bits can hold, and which accepted sessions stay inside.
 */
module Range {
  import opened Wrappers
  import opened Decimals
  import opened Sums
  import opened Grouping
  import opened Policy
  import opened Tariffs
  import opened Input
  import opened Lookup
  import opened Breakdown
  import opened Selection
  import opened Segments
  import opened Quantise
  import opened Price

  /** The largest number a decimal holds, `2^96 - 1`. */
  const DECIMAL_MAX := 79228162514264337593543950335.0

  predicate Fits(x: real) {
    Abs(x) <= DECIMAL_MAX
  }

  /** The largest `step_size` the wire format holds, `2^32 - 1`. */
  const STEP_MAX := 4294967295

  /** Rates of 0 to `top` percent, and block sizes the wire format can hold. */
  predicate TermsUpTo(t: Tariff, top: real) {
    forall e :: e in t.elements ==> forall c :: c in e.components ==>
      c.stepSize <= STEP_MAX && (c.vat.Some? ==> 0.0 <= c.vat.value <= top)
  }

  /** The rates anybody charges: 0 to 100 percent. */
  predicate OrdinaryTerms(t: Tariff) {
    TermsUpTo(t, 100.0)
  }

  /** More than any quantity after block billing. */
  const QUANTITY_MAX := 1000004300000.0

  /** More than any one segment costs or is taxed. */
  const LINE_MAX := 1000020000000000000000000.0

  /** A segment with a quantity within `most` and a rate of 0 to `top` percent. */
  predicate Bounded(s: Segment, most: real, top: real) {
    && Abs(s.priced.quantity) <= most
    && Abs(s.priced.price) <= MAX_MAGNITUDE
    && (s.priced.vat.Some? ==> 0.0 <= s.priced.vat.value <= top)
    && s.stepSize <= STEP_MAX
  }

  // ---------------------------------------------------------------------------------------
  // Segments
  // ---------------------------------------------------------------------------------------

  lemma PricedWithin(stretch: Stretch, s: Segment, top: real)
    requires PricedBy(stretch, s)
    requires PriceableTariff(stretch.plan.tariff) && TermsUpTo(stretch.plan.tariff, top)
            && PriceablePeriod(stretch.period)
    requires s.dimension.Flat? ==> s.stepSize <= STEP_MAX
    ensures Bounded(s, MAX_MAGNITUDE, top)
  {
    var (elements, at) := (stretch.plan.tariff.elements, s.priced.applied);
    var c := elements[at.element].components[at.index];
    assert elements[at.element] in elements;
    assert c in elements[at.element].components;
  }

  /** A flat fee has a step of one. */
  lemma {:induction false} FlatStep(stretches: seq<Stretch>)
    ensures forall s :: s in Collect(stretches) && s.dimension.Flat? ==> s.stepSize == 1
  {
    if stretches == [] {
    } else {
      hide FindComponent, QuantitySegments;
      var n := |stretches| - 1;
      FlatStep(stretches[..n]);
      PeriodIsNotFlat(stretches[n]);
      var quantities := stretches[n].Quantities();
      forall s | s in quantities
        ensures !s.dimension.Flat?
      {
        var k :| 0 <= k < |quantities| && quantities[k] == s;
      }
    }
  }

  /** Every priced segment of an accepted session is within range. */
  lemma CollectedAreBounded(session: PricedSession, tariffs: seq<Tariff>, stretches: seq<Stretch>, top: real)
    requires Planned(session, tariffs, |session.periods|) == Ok(stretches)
    requires CheckRange(session, tariffs) && forall t :: t in tariffs ==> TermsUpTo(t, top)
    ensures forall s :: s in Collect(stretches) ==> Bounded(s, MAX_MAGNITUDE, top)
  {
    hide Planned, Collect, PricedBy, PlanOf, PriceableTariff, TermsUpTo, PriceablePeriod, Bounded;
    FlatStep(stretches);
    forall s | s in Collect(stretches)
      ensures Bounded(s, MAX_MAGNITUDE, top)
    {
      AuditTrail(stretches, s);
      var i :| 0 <= i < |stretches| && PricedBy(stretches[i], s);
      PlannedMeaning(session, tariffs, |session.periods|);
      PlanInTariffs(session, tariffs, i);
      PricedWithin(stretches[i], s, top);
    }
  }

  lemma NotAboveAt(x: real, m: real, c: real, d: real)
    requires d > 0.0 && m <= x * d + c
    ensures m / d <= x + c / d
  {
    var e := c / d;
    DivMonotone(m, x * d + c, d);
    DivOf(c, e, d);
    Distribute(x, e, d);
    DivOf(x * d + c, x + e, d);
  }

  /** Block billing moves a quantity by less than a block of the largest size there is. */
  lemma ApplyWithin(q: Quantisation, quantity: real, step: nat, scale: nat)
    requires step <= STEP_MAX && scale >= 1000
    ensures Abs(Apply(q, quantity, step, scale) - quantity) <= 4300000.0
  {
    var (d, most) := (scale as real, 4294967296.0);
    SmallerThanAThousandth(most, d);
    SmallerThanAThousandth(0.0000005, d);
    ApplyNotBelow(q, quantity, step, scale);
    ApplyNotAbove(q, quantity, step, scale, most);
    hide Apply;
  }

  lemma ApplyNotAbove(q: Quantisation, quantity: real, step: nat, scale: nat, most: real)
    requires scale > 0 && step as real + 0.0000005 <= most
    ensures Apply(q, quantity, step, scale) <= quantity + most / scale as real
  {
    hide Billed;
    if q.StepSize? && step > 0 {
      ReadWithin(quantity, scale);
      hide InUnits;
      BlocksCover(InUnits(quantity, scale), step);
      NotAboveAt(quantity, Billed(InUnits(quantity, scale), step), most, scale as real);
    } else {
      DivMonotone(0.0, most, scale as real);
    }
  }

  /** A quantity is read to half a millionth of a counted unit. */
  lemma ReadWithin(quantity: real, scale: nat)
    requires scale > 0
    ensures InUnits(quantity, scale) <= quantity * scale as real + 0.0000005
  {
    RoundError(MidpointAwayFromZero, MICRO, quantity * scale as real);
  }

  lemma SmallerThanAThousandth(x: real, d: real)
    requires x >= 0.0 && d >= 1000.0
    ensures 0.0 <= x / d <= x / 1000.0
  {
    var q := x / d;
    DivOf(x, q, d);
    ScaleMonotone(0.0, q, d);
    var e := q * (d - 1000.0);
    assert e >= 0.0 && e == x - q * 1000.0;
  }

  lemma AdjustedAreBounded(q: Quantisation, d: Dimension, list: seq<Segment>, time: Option<Dimension>, top: real)
    requires forall s :: s in list ==> Bounded(s, MAX_MAGNITUDE, top)
    ensures forall s :: s in Adjusted(q, d, list, time) ==> Bounded(s, QUANTITY_MAX, top)
  {
    hide Apply;
    var step := if list == [] then 1 else list[|list| - 1].stepSize;
    assert list != [] ==> list[|list| - 1] in list;
    ApplyWithin(q, SumBy(list, Quantity), step, UnitScale(d));
    forall s | s in Adjusted(q, d, list, time)
      ensures Bounded(s, QUANTITY_MAX, top)
    {
      var i :| 0 <= i < |list| && s == Adjusted(q, d, list, time)[i];
      assert list[i] in list;
    }
  }

  lemma {:induction false} GroupsAreBounded(q: Quantisation, groups: seq<Group>, time: Option<Dimension>, top: real)
    requires forall g, s :: g in groups && s in g.list ==> Bounded(s, MAX_MAGNITUDE, top)
    ensures forall s :: s in AllAdjusted(q, groups, time) ==> Bounded(s, QUANTITY_MAX, top)
  {
    hide Adjusted, Bounded;
    if groups == [] {
    } else {
      var n := |groups| - 1;
      GroupsAreBounded(q, groups[..n], time, top);
      assert groups[n] in groups;
      AdjustedAreBounded(q, groups[n].dimension, groups[n].list, time, top);
    }
  }

  lemma BilledAreBounded(q: Quantisation, segments: seq<Segment>, top: real)
    requires forall s :: s in segments ==> Bounded(s, MAX_MAGNITUDE, top)
    ensures forall s :: s in BilledSegments(q, segments) ==> Bounded(s, QUANTITY_MAX, top)
  {
    hide Bounded, AllAdjusted;
    forall g, s | g in Groups(segments) && s in g.list
      ensures Bounded(s, MAX_MAGNITUDE, top)
    {
      WithKeySound(segments, DimensionKey, g.dimension);
    }
    GroupsAreBounded(q, Groups(segments), QuantisedTime(segments), top);
  }

  // ---------------------------------------------------------------------------------------
  // One segment's products
  // ---------------------------------------------------------------------------------------

  lemma ProductWithin(x: real, y: real, a: real, b: real)
    requires Abs(x) <= a && Abs(y) <= b
    ensures Abs(x * y) <= a * b
  {
    var (u, v) := (Abs(x), Abs(y));
    NonNegativeProduct(b - v, u);
    Distribute(b, v, u);
    NonNegativeProduct(a - u, b);
    Distribute(a, u, b);
    SignsOut(x, y);
  }

  lemma SignsOut(x: real, y: real)
    ensures x * y == Abs(x) * Abs(y) || x * y == -(Abs(x) * Abs(y))
  {
  }

  /** Rounding to at least whole units moves an amount by at most one. */
  lemma RoundedWithin(policy: PricingPolicy, x: real, most: real)
    requires Abs(x) <= most
    ensures Abs(policy.RoundComponent(x)) <= most + 1.0
  {
    var p := Pow10(policy.componentDecimals);
    RoundError(policy.rounding, p, x);
    DividedIsSmaller(1.0, p);
  }

  /** Rounding keeps an amount within one that needs no rounding. */
  lemma RoundedWithinGrid(policy: PricingPolicy, x: real, most: real)
    requires Abs(x) <= most && IsComponent(policy, most)
    ensures Abs(policy.RoundComponent(x)) <= most
  {
    hide IsComponent, PricingPolicy.RoundComponent;
    ZeroIsExact(policy);
    ComponentSum(policy, 0.0, most);
    ComponentIdentity(policy, most);
    ComponentIdentity(policy, -most);
    ComponentMonotone(policy, x, most);
    ComponentMonotone(policy, -most, x);
  }

  const CHARGE_MAX := 1000004300000000000000000.0

  /** The largest whole rate whose every product fits. */
  const RATE_MAX: nat := 79227

  lemma ChargeWithin(quantity: real, price: real, charge: real)
    requires Abs(quantity) <= QUANTITY_MAX && Abs(price) <= MAX_MAGNITUDE && charge == quantity * price
    ensures Abs(charge) <= CHARGE_MAX
  {
    ProductWithin(quantity, price, QUANTITY_MAX, MAX_MAGNITUDE);
  }

  /** What a segment states times its rate, which the tax on top of it is a hundredth of. */
  function RateTimes(policy: PricingPolicy, s: Segment): real
    requires s.priced.vat.Some?
  {
    Stated(policy, s.priced) * s.priced.vat.value
  }

  /** No product a segment is costed by is out of range. */
  lemma ProductsFit(policy: PricingPolicy, s: Segment, top: real)
    requires Bounded(s, QUANTITY_MAX, top) && top <= RATE_MAX as real
    ensures Abs(Charge(s.priced)) <= CHARGE_MAX
    ensures Abs(Stated(policy, s.priced)) <= CHARGE_MAX + 1.0
    ensures s.priced.vat.Some? ==> Fits(RateTimes(policy, s))
  {
    hide PricingPolicy.RoundComponent;
    ChargeWithin(s.priced.quantity, s.priced.price, Charge(s.priced));
    RoundedWithin(policy, Charge(s.priced), CHARGE_MAX);
    if s.priced.vat.Some? {
      var (stated, rate) := (Stated(policy, s.priced), s.priced.vat.value);
      ProductWithin(stated, rate, CHARGE_MAX + 1.0, RATE_MAX as real);
    }
  }

  /** Neither part of a split amount exceeds the amount, at a rate of 0 to 100 percent. */
  lemma SplitWithin(policy: PricingPolicy, stated: real, rate: Option<real>, basis: TaxBasis)
    requires IsComponent(policy, stated) && (rate.Some? ==> 0.0 <= rate.value <= 100.0)
    ensures var split := SplitTax(policy, stated, rate, basis);
            Abs(split.net) <= Abs(stated) && Abs(split.tax) <= Abs(stated)
  {
    hide IsComponent, PricingPolicy.RoundComponent;
    if rate.Some? {
      var divisor := 1.0 + rate.value / 100.0;
      if basis.Excluded? || basis.Mixed? {
        AddedTaxWithin(policy, stated, rate.value, basis);
      }
      ContainedNetWithin(policy, stated, divisor);
    }
  }

  lemma AddedTaxWithin(policy: PricingPolicy, stated: real, rate: real, basis: TaxBasis)
    requires IsComponent(policy, stated) && 0.0 <= rate <= 100.0 && (basis.Excluded? || basis.Mixed?)
    ensures Abs(SplitTax(policy, stated, Some(rate), basis).tax) <= Abs(stated)
  {
    hide IsComponent, PricingPolicy.RoundComponent;
    ZeroIsExact(policy);
    ComponentSum(policy, 0.0, stated);
    assert 0.0 - stated == -stated;
    ShareWithin(stated, rate);
    forall share | share == stated * rate / 100.0
      ensures Abs(policy.RoundComponent(share)) <= Abs(stated)
    {
      RoundedWithinGrid(policy, share, Abs(stated));
    }
  }

  lemma ContainedNetWithin(policy: PricingPolicy, stated: real, divisor: real)
    requires IsComponent(policy, stated) && divisor >= 1.0
    ensures var net := policy.RoundComponent(stated / divisor);
            Abs(net) <= Abs(stated) && Abs(stated - net) <= Abs(stated)
  {
    hide IsComponent, PricingPolicy.RoundComponent;
    var quotient := stated / divisor;
    ZeroIsExact(policy);
    QuotientBetween(stated, divisor);
    ComponentIdentity(policy, stated);
    ComponentIdentity(policy, 0.0);
    if stated >= 0.0 {
      ComponentMonotone(policy, 0.0, quotient);
      ComponentMonotone(policy, quotient, stated);
    } else {
      ComponentMonotone(policy, quotient, 0.0);
      ComponentMonotone(policy, stated, quotient);
    }
  }

  lemma ShareWithin(x: real, r: real)
    requires 0.0 <= r <= 100.0
    ensures Abs(x * r / 100.0) <= Abs(x)
  {
    ProductWithin(x, r, Abs(x), 100.0);
  }

  lemma QuotientBetween(x: real, d: real)
    requires d >= 1.0
    ensures x >= 0.0 ==> 0.0 <= x / d <= x
    ensures x < 0.0 ==> x <= x / d <= 0.0
  {
    if x >= 0.0 {
      DividedIsSmaller(x, d);
    } else {
      DividedIsSmaller(-x, d);
      NegatedQuotient(x, d);
    }
  }

  lemma NegatedQuotient(x: real, d: real)
    requires d > 0.0
    ensures (-x) / d == -(x / d)
  {
    var q := x / d;
    DivOf(x, q, d);
    Distribute(0.0, q, d);
    DivOf(-x, -q, d);
  }

  lemma CostsFit(policy: PricingPolicy, s: Segment)
    requires Bounded(s, QUANTITY_MAX, 100.0)
    ensures Abs(Costed(policy, s).cost) <= LINE_MAX && Abs(Costed(policy, s).tax) <= LINE_MAX
  {
    hide IsComponent, PricingPolicy.RoundComponent, SplitTax, Bounded, PricingPolicy.RoundQuantity;
    ProductsFit(policy, s, 100.0);
    RoundedIsComponent(policy);
    assert s.priced.vat.Some? ==> 0.0 <= s.priced.vat.value <= 100.0 by {
      RateIsOrdinary(s);
    }
    SplitWithin(policy, Stated(policy, s.priced), s.priced.vat, s.priced.basis);
  }

  lemma RateIsOrdinary(s: Segment)
    requires Bounded(s, QUANTITY_MAX, 100.0)
    ensures s.priced.vat.Some? ==> 0.0 <= s.priced.vat.value <= 100.0
  {
  }

  // ---------------------------------------------------------------------------------------
  // How many segments there are
  // ---------------------------------------------------------------------------------------

  lemma {:induction false} QuantitiesCount(plan: Plan, period: PricedPeriod, consumed: seq<Consumed>)
    ensures |QuantitySegments(plan, period, consumed)| <= |consumed|
  {
    if consumed == [] {
    } else {
      QuantitiesCount(plan, period, consumed[..|consumed| - 1]);
    }
  }

  lemma StretchCount(s: Stretch)
    ensures |s.Quantities()| <= 4
  {
    hide QuantitySegments;
    QuantitiesCount(s.plan, s.period, PeriodQuantities(s.period));
  }

  /** At most four segments a period, and one flat fee. */
  lemma {:induction false} CollectCount(stretches: seq<Stretch>)
    ensures |Collect(stretches)| <= 4 * |stretches| + if HasFlat(Collect(stretches)) then 1 else 0
  {
    hide *;
    CollectNothing();
    if stretches == [] {
    } else {
      var n := |stretches| - 1;
      var before := stretches[..n];
      CollectCount(before);
      CollectCountStep(before, stretches[n]);
      assert stretches == before + [stretches[n]];
    }
  }

  lemma CollectNothing()
    ensures Collect([]) == [] && !HasFlat([])
  {
  }

  lemma CollectCountStep(stretches: seq<Stretch>, s: Stretch)
    ensures var (before, after) := (Collect(stretches), Collect(stretches + [s]));
            |after| <= |before| + 4 + if HasFlat(after) && !HasFlat(before) then 1 else 0
    ensures HasFlat(Collect(stretches)) ==> HasFlat(Collect(stretches + [s]))
  {
    hide *;
    CollectStep(stretches, s);
    StretchCount(s);
  }

  function ListLength(g: Group): real { |g.list| as real }
  function One(s: Segment): real { 1.0 }

  lemma {:induction false} SumOfOnes(list: seq<Segment>)
    ensures SumBy(list, One) == |list| as real
  {
    if list == [] {
    } else {
      SumOfOnes(list[..|list| - 1]);
    }
  }

  lemma {:induction false} AdjustedCount(q: Quantisation, groups: seq<Group>, time: Option<Dimension>)
    ensures |AllAdjusted(q, groups, time)| as real == SumBy(groups, ListLength)
  {
    hide BilledFor;
    if groups == [] {
    } else {
      AdjustedCount(q, groups[..|groups| - 1], time);
    }
  }

  /** Block billing neither adds nor drops a segment. */
  lemma BilledCount(q: Quantisation, segments: seq<Segment>)
    ensures |BilledSegments(q, segments)| == |segments|
  {
    hide AllAdjusted;
    var groups := Groups(segments);
    forall i | 0 <= i < |groups|
      ensures ListLength(groups[i]) == KeySum(segments, DimensionKey, One, FirstSeen(segments, DimensionKey)[i])
    {
      SumOfOnes(groups[i].list);
    }
    GroupingConserves(segments, DimensionKey, One, groups, ListLength);
    SumOfOnes(segments);
    AdjustedCount(q, groups, QuantisedTime(segments));
  }

  // ---------------------------------------------------------------------------------------
  // Sums
  // ---------------------------------------------------------------------------------------

  lemma {:induction false} SumBounded<T>(list: seq<T>, f: T -> real, most: real)
    requires forall x :: x in list ==> Abs(f(x)) <= most
    ensures Abs(SumBy(list, f)) <= Times(|list|, most)
  {
    if list == [] {
    } else {
      var n := |list| - 1;
      assert list[n] in list;
      SumBounded(list[..n], f, most);
    }
  }

  lemma {:induction false} TimesMonotone(m: nat, n: nat, d: real)
    requires m <= n && d >= 0.0
    ensures Times(m, d) <= Times(n, d)
  {
    if m == n {
    } else {
      TimesMonotone(m, n - 1, d);
    }
  }

  /** The most periods whose every sum is sure to fit. */
  const PERIODS_MAX: nat := 9903

  /** The segments of a breakdown whose costs and taxes are within range. */
  predicate Moderate(costed: seq<PricedSegment>) {
    && |costed| <= 4 * PERIODS_MAX + 1
    && forall x :: x in costed ==> Abs(x.cost) <= LINE_MAX && Abs(x.tax) <= LINE_MAX
  }

  /** More than any sum of costs, or of taxes, of a breakdown of moderate segments. */
  const SUM_MAX := 39613792260000000000000000000.0

  /** What a breakdown of moderate segments adds up, in any grouping and order, fits. */
  lemma SumsFit(list: seq<PricedSegment>)
    requires Moderate(list)
    ensures Abs(SumBy(list, Cost)) <= SUM_MAX && Abs(SumBy(list, Tax)) <= SUM_MAX
    ensures Fits(SumBy(list, Cost)) && Fits(SumBy(list, Tax)) && Fits(SumBy(list, Cost) + SumBy(list, Tax))
  {
    var most: nat := 4 * PERIODS_MAX + 1;
    SumBounded(list, Cost, LINE_MAX);
    SumBounded(list, Tax, LINE_MAX);
    TimesMonotone(|list|, most, LINE_MAX);
    TimesProduct(most, LINE_MAX);
  }

  /** The costed segments of an accepted session. */
  function CostedOf(policy: PricingPolicy, session: PricedSession, tariffs: seq<Tariff>): seq<PricedSegment>
    requires Planned(session, tariffs, |session.periods|).Ok?
  {
    AllSegments(DimensionsOf(policy, Collect(Planned(session, tariffs, |session.periods|).value)))
  }

  /** The quantities an accepted session is costed by. */
  function BilledOf(policy: PricingPolicy, session: PricedSession, tariffs: seq<Tariff>): seq<Segment>
    requires Planned(session, tariffs, |session.periods|).Ok?
  {
    BilledSegments(policy.quantisation, Collect(Planned(session, tariffs, |session.periods|).value))
  }

  /**
   * With rates of 0 to 79227 percent, every product the engine does not check stays in range for
   * input the range check accepts, whatever the number of periods.
   */
  lemma EveryProductFits(policy: PricingPolicy, session: PricedSession, tariffs: seq<Tariff>, s: Segment)
    requires Planned(session, tariffs, |session.periods|).Ok?
    requires CheckRange(session, tariffs) && forall t :: t in tariffs ==> TermsUpTo(t, RATE_MAX as real)
    requires s in BilledOf(policy, session, tariffs)
    ensures Fits(Charge(s.priced)) && (s.priced.vat.Some? ==> Fits(RateTimes(policy, s)))
  {
    hide Planned, Collect, BilledSegments, TermsUpTo, CheckRange, Charge, RateTimes, Bounded;
    var stretches := Planned(session, tariffs, |session.periods|).value;
    CollectedAreBounded(session, tariffs, stretches, RATE_MAX as real);
    BilledAreBounded(policy.quantisation, Collect(stretches), RATE_MAX as real);
    ProductsFit(policy, s, RATE_MAX as real);
  }

  /** The costed segments of an accepted session of no more than 9903 periods are moderate. */
  lemma CostedAreModerate(policy: PricingPolicy, session: PricedSession, tariffs: seq<Tariff>)
    requires Planned(session, tariffs, |session.periods|).Ok? && |session.periods| <= PERIODS_MAX
    requires CheckRange(session, tariffs) && forall t :: t in tariffs ==> OrdinaryTerms(t)
    ensures Moderate(CostedOf(policy, session, tariffs))
  {
    hide Planned, Collect, BilledSegments, DimensionsOf, TermsUpTo, CheckRange, Bounded, Costed, AllSegments;
    var stretches := Planned(session, tariffs, |session.periods|).value;
    var segments := Collect(stretches);
    var billed := BilledSegments(policy.quantisation, segments);
    CollectedAreBounded(session, tariffs, stretches, 100.0);
    BilledAreBounded(policy.quantisation, segments, 100.0);
    CostedSegments(policy, segments);
    BilledCount(policy.quantisation, segments);
    CollectCount(stretches);
    var costed := CostedAll(policy, billed);
    forall x | x in costed
      ensures Abs(x.cost) <= LINE_MAX && Abs(x.tax) <= LINE_MAX
    {
      var i :| 0 <= i < |costed| && costed[i] == x;
      CostsFit(policy, billed[i]);
    }
  }

  /**
   * With rates of 0 to 100 percent and no more than 9903 periods, every sum of costs, of taxes and
   * of both stays in range: of all segments, of a dimension, of a rate, and of any part of those.
   */
  lemma EverySumFits(policy: PricingPolicy, session: PricedSession, tariffs: seq<Tariff>, part: seq<PricedSegment>)
    requires Planned(session, tariffs, |session.periods|).Ok? && |session.periods| <= PERIODS_MAX
    requires CheckRange(session, tariffs) && forall t :: t in tariffs ==> OrdinaryTerms(t)
    requires |part| <= |CostedOf(policy, session, tariffs)|
    requires forall x :: x in part ==> x in CostedOf(policy, session, tariffs)
    ensures Fits(SumBy(part, Cost)) && Fits(SumBy(part, Tax)) && Fits(SumBy(part, Cost) + SumBy(part, Tax))
  {
    hide Planned, OrdinaryTerms, CheckRange, CostedOf, Fits;
    CostedAreModerate(policy, session, tariffs);
    SumsFit(part);
  }

  /** The energy charged before any period is in range. */
  lemma EnergySumsFit(session: PricedSession, tariffs: seq<Tariff>, i: nat)
    requires CheckRange(session, tariffs) && i <= |session.periods| <= PERIODS_MAX
    ensures Fits(session.EnergyBefore(i))
  {
    var before := session.periods[..i];
    forall p | p in before
      ensures Abs(EnergyKwh(p)) <= MAX_MAGNITUDE
    {
      assert p in session.periods;
    }
    SumBounded(before, EnergyKwh, MAX_MAGNITUDE);
    TimesMonotone(i, PERIODS_MAX, MAX_MAGNITUDE);
    TimesProduct(PERIODS_MAX, MAX_MAGNITUDE);
  }

  /** So is every sum of measured quantities. */
  lemma QuantitySumsFit(session: PricedSession, tariffs: seq<Tariff>, stretches: seq<Stretch>, part: seq<Segment>)
    requires Planned(session, tariffs, |session.periods|) == Ok(stretches) && |session.periods| <= PERIODS_MAX
    requires CheckRange(session, tariffs) && forall t :: t in tariffs ==> OrdinaryTerms(t)
    requires |part| <= |Collect(stretches)| && forall s :: s in part ==> s in Collect(stretches)
    ensures Fits(SumBy(part, Quantity))
  {
    hide Planned, Collect, TermsUpTo, CheckRange;
    CollectedAreBounded(session, tariffs, stretches, 100.0);
    CollectCount(stretches);
    var most: nat := 4 * PERIODS_MAX + 1;
    SumBounded(part, Quantity, MAX_MAGNITUDE);
    TimesMonotone(|part|, most, MAX_MAGNITUDE);
    TimesProduct(most, MAX_MAGNITUDE);
  }
}
