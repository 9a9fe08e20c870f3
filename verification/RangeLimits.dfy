/**
 * Where the range check stops being enough: one period too many, rates without a bound, and a
 * price limit over amounts that cancel.
 */
module RangeLimits {
  import opened Wrappers
  import opened Decimals
  import opened Sums
  import opened Grouping
  import opened Policy
  import opened Tariffs
  import opened Input
  import opened Lookup
  import opened Breakdown
  import opened Selection
  import opened Segments
  import opened Quantise
  import opened Finish
  import opened Price
  import opened Range

  /** The largest figure the range check accepts, everywhere, at a rate of `rate` percent. */
  function ExtremeComponent(d: Dimension, rate: real): PriceComponent {
    PriceComponent(d, MAX_MAGNITUDE, Some(rate), 0)
  }

  function ExtremeTariff(rate: real): Tariff {
    Tariff("T", None, None, None,
           [TariffElement([ExtremeComponent(Energy, rate),
                           ExtremeComponent(Time, rate),
                           ExtremeComponent(ParkingTime, rate)], None),
            TariffElement([ExtremeComponent(Time, rate)], Some(UNRESTRICTED.(reservation := Some(Reservation))))],
           No, None, None)
  }

  function ExtremePeriod(i: nat): PricedPeriod {
    PricedPeriod(i, MAX_MAGNITUDE, MAX_MAGNITUDE, MAX_MAGNITUDE, MAX_MAGNITUDE, None, None, None, None, None)
  }

  function ExtremeSession(n: nat): PricedSession {
    PricedSession(0, None, seq(n, i requires 0 <= i < n => ExtremePeriod(i)),
                  (t: DateTime) => Some(LocalParts(0, 0, Monday)), None, false, false)
  }

  /** A segment of such a session. */
  predicate Extreme(s: Segment, rate: real) {
    s.priced.quantity == MAX_MAGNITUDE && s.priced.price == MAX_MAGNITUDE && s.priced.vat == Some(rate)
    && s.priced.basis.Excluded? && s.stepSize == 0
  }

  lemma ExtremeIsAccepted(n: nat, rate: real)
    requires 0.0 <= rate <= MAX_MAGNITUDE
    ensures CheckRange(ExtremeSession(n), [ExtremeTariff(rate)])
    ensures rate <= 100.0 ==> OrdinaryTerms(ExtremeTariff(rate))
  {
  }

  /** Every component of the extreme tariff is an extreme one. */
  lemma ExtremeComponents(rate: real, e: nat, c: nat)
    requires e < |ExtremeTariff(rate).elements| && c < |ExtremeTariff(rate).elements[e].components|
    ensures var x := ExtremeTariff(rate).elements[e].components[c];
            x == ExtremeComponent(x.dimension, rate) && !x.dimension.Flat?
  {
  }

  lemma ExtremeFinds(rate: real, d: Dimension, ctx: Context)
    requires !ctx.reservationExpired
    ensures FindComponent(ExtremeTariff(rate), d, ctx).Some? <==> !d.Flat? && (ctx.isReservation ==> d.Time?)
  {
    var elements := ExtremeTariff(rate).elements;
    ExtremePrices(rate, d, ctx);
    hide Prices;
    var found := FindComponent(ExtremeTariff(rate), d, ctx);
    assert Prices(elements, 0, d, ctx) || Prices(elements, 1, d, ctx) <==> found.Some?;
  }

  lemma ExtremePrices(rate: real, d: Dimension, ctx: Context)
    requires !ctx.reservationExpired
    ensures var elements := ExtremeTariff(rate).elements;
            |elements| == 2
            && (Prices(elements, 0, d, ctx) <==> !ctx.isReservation && !d.Flat?)
            && (Prices(elements, 1, d, ctx) <==> ctx.isReservation && d.Time?)
  {
    var elements := ExtremeTariff(rate).elements;
    assert elements[0].components[0].dimension == Energy;
    assert elements[0].components[1].dimension == Time;
    assert elements[0].components[2].dimension == ParkingTime;
    assert elements[1].components[0].dimension == Time;
  }

  /** A stretch of the extreme session. */
  predicate ExtremeStretch(s: Stretch, rate: real) {
    s.plan.tariff == ExtremeTariff(rate) && !s.plan.context.reservationExpired
    && s.period.start >= 0 && s.period == ExtremePeriod(s.period.start)
  }

  lemma ExtremePlan(n: nat, rate: real, i: nat)
    requires i < n
    ensures var plan := PlanOf(ExtremeSession(n), [ExtremeTariff(rate)], i);
            plan.Ok? && plan.value.tariff == ExtremeTariff(rate) && !plan.value.context.reservationExpired
  {
    hide ExtremeTariff;
    var tariffs := [ExtremeTariff(rate)];
    assert tariffs[0].IsActiveAt(i) by {
      AlwaysActive(rate, i);
    }
    var selected := SelectTariff(ExtremeSession(n), ExtremePeriod(i), tariffs);
    assert ExtremeSession(n).periods[i] == ExtremePeriod(i);
    assert selected.Ok?;
    assert selected.value in tariffs;
  }

  lemma AlwaysActive(rate: real, at: DateTime)
    ensures ExtremeTariff(rate).IsActiveAt(at)
  {
  }

  lemma ExtremePlanned(n: nat, rate: real) returns (stretches: seq<Stretch>)
    ensures Planned(ExtremeSession(n), [ExtremeTariff(rate)], n) == Ok(stretches)
    ensures |stretches| == n && forall i :: 0 <= i < n ==> ExtremeStretch(stretches[i], rate)
  {
    hide PlanOf, Planned, ExtremeTariff;
    var (session, tariffs) := (ExtremeSession(n), [ExtremeTariff(rate)]);
    PlannedMeaning(session, tariffs, n);
    forall i: nat | i < n
      ensures PlanOf(session, tariffs, i).Ok?
    {
      ExtremePlan(n, rate, i);
    }
    var planned := Planned(session, tariffs, n);
    assert planned.Ok?;
    stretches := planned.value;
    forall i: nat | i < n
      ensures ExtremeStretch(stretches[i], rate)
    {
      ExtremePlan(n, rate, i);
    }
  }

  /** The extreme session is priced, however many periods it has. */
  lemma ExtremeIsPriced(n: nat, rate: real)
    requires 0.0 <= rate <= MAX_MAGNITUDE
    ensures Priced(DEFAULT, ExtremeSession(n), [ExtremeTariff(rate)]).Ok?
  {
    hide Planned, CheckRange, ExtremeTariff, Assemble, SelectByPreference;
    var (session, tariffs) := (ExtremeSession(n), [ExtremeTariff(rate)]);
    ExtremeIsAccepted(n, rate);
    var stretches := ExtremePlanned(n, rate);
    assert tariffs[0].IsActiveAt(session.start) by {
      AlwaysActive(rate, session.start);
    }
  }

  /** A stretch of the extreme session gives four segments and no flat fee. */
  lemma ExtremeQuantities(s: Stretch, rate: real)
    requires ExtremeStretch(s, rate)
    ensures |s.Quantities()| == 4 && s.FlatFee().None?
  {
    hide FindComponent, ExtremeTariff;
    var c := PeriodQuantities(s.period);
    var (charging, reserved) := (s.plan.context.Reserving(false), s.plan.context.Reserving(true));
    ExtremeFinds(rate, Energy, charging);
    ExtremeFinds(rate, Time, charging);
    ExtremeFinds(rate, Time, reserved);
    ExtremeFinds(rate, ParkingTime, charging);
    ExtremeFinds(rate, Flat, charging);
    ExtremeFinds(rate, Flat, reserved);
    AddsOne(s, c, 4);
    AddsOne(s, c, 3);
    AddsOne(s, c, 2);
    AddsOne(s, c, 1);
    assert c[..4] == c && c[..0] == [];
  }

  lemma AddsOne(s: Stretch, c: seq<Consumed>, n: nat)
    requires 0 < n <= |c| && QuantitySegment(s.plan, s.period, c[n - 1]).Some?
    ensures |QuantitySegments(s.plan, s.period, c[..n])| == |QuantitySegments(s.plan, s.period, c[..n - 1])| + 1
  {
    hide QuantitySegment;
    assert c[..n][..n - 1] == c[..n - 1];
  }

  lemma {:induction false} ExtremeCount(stretches: seq<Stretch>, rate: real)
    requires forall i :: 0 <= i < |stretches| ==> ExtremeStretch(stretches[i], rate)
    ensures |Collect(stretches)| == 4 * |stretches|
  {
    if stretches == [] {
    } else {
      hide ExtremeStretch, QuantitySegments, FlatSegment, HasFlat;
      var n := |stretches| - 1;
      ExtremeCount(stretches[..n], rate);
      ExtremeQuantities(stretches[n], rate);
    }
  }

  lemma ExtremeSegments(stretches: seq<Stretch>, rate: real)
    requires forall i :: 0 <= i < |stretches| ==> ExtremeStretch(stretches[i], rate)
    ensures forall s :: s in Collect(stretches) ==> Extreme(s, rate)
  {
    hide Collect, PricedBy, ExtremeStretch, Extreme;
    forall s | s in Collect(stretches)
      ensures Extreme(s, rate)
    {
      AuditTrail(stretches, s);
      var i :| 0 <= i < |stretches| && PricedBy(stretches[i], s);
      PricedExtremely(stretches[i], s, rate);
    }
  }

  lemma PricedExtremely(stretch: Stretch, s: Segment, rate: real)
    requires PricedBy(stretch, s) && ExtremeStretch(stretch, rate)
    ensures Extreme(s, rate)
  {
    hide ExtremeTariff;
    ExtremeComponents(rate, s.priced.applied.element, s.priced.applied.index);
    assert ExtremeTariff(rate).taxIncluded.No? by {
      PreTaxTariff(rate);
    }
  }

  lemma PreTaxTariff(rate: real)
    ensures ExtremeTariff(rate).taxIncluded.No?
  {
  }

  // ---------------------------------------------------------------------------------------
  // What they cost
  // ---------------------------------------------------------------------------------------

  lemma {:induction false} NothingToQuantise(groups: seq<Group>, time: Option<Dimension>, rate: real)
    requires forall g, s :: g in groups && s in g.list ==> Extreme(s, rate)
    ensures forall s :: s in AllAdjusted(StepSize, groups, time) ==> Extreme(s, rate)
  {
    if groups == [] {
    } else {
      hide Extreme, Adjusted;
      var n := |groups| - 1;
      NothingToQuantise(groups[..n], time, rate);
      assert groups[n] in groups;
      KeptAsMeasured(groups[n].dimension, groups[n].list, time, rate);
    }
  }

  lemma KeptAsMeasured(d: Dimension, list: seq<Segment>, time: Option<Dimension>, rate: real)
    requires forall s :: s in list ==> Extreme(s, rate)
    ensures Adjusted(StepSize, d, list, time) == list
  {
    if list != [] {
      assert list[|list| - 1] in list;
    }
    AddNothing(list);
  }

  lemma BilledExtreme(segments: seq<Segment>, rate: real)
    requires forall s :: s in segments ==> Extreme(s, rate)
    ensures forall s :: s in BilledSegments(StepSize, segments) ==> Extreme(s, rate)
  {
    hide Extreme, AllAdjusted;
    forall g, s | g in Groups(segments) && s in g.list
      ensures Extreme(s, rate)
    {
      Grouping.WithKeySound(segments, DimensionKey, g.dimension);
    }
    NothingToQuantise(Groups(segments), QuantisedTime(segments), rate);
  }

  const EXTREME_CHARGE := 1000000000000000000000000.0

  lemma ExtremeCharge(s: Segment, rate: real)
    requires Extreme(s, rate)
    ensures Stated(DEFAULT, s.priced) == EXTREME_CHARGE
  {
    hide PricingPolicy.RoundComponent, IsComponent;
    assert Charge(s.priced) == EXTREME_CHARGE;
    ExtremeIsComponent();
    ComponentIdentity(DEFAULT, EXTREME_CHARGE);
  }

  lemma ExtremeIsComponent()
    ensures IsComponent(DEFAULT, EXTREME_CHARGE)
  {
    assert Pow10(4) == 10000.0;
    WholeAt(EXTREME_CHARGE * 10000.0, 10000000000000000000000000000);
  }

  lemma ExtremeCosts(s: Segment)
    requires Extreme(s, 100.0)
    ensures Costed(DEFAULT, s).cost == EXTREME_CHARGE && Costed(DEFAULT, s).tax == EXTREME_CHARGE
  {
    hide PricingPolicy.RoundComponent, PricingPolicy.RoundQuantity, IsComponent, Stated;
    ExtremeCharge(s, 100.0);
    ExtremeIsComponent();
    ComponentIdentity(DEFAULT, EXTREME_CHARGE);
  }

  lemma {:induction false} SumOfEqual(list: seq<PricedSegment>, f: PricedSegment -> real, each: real)
    requires forall x :: x in list ==> f(x) == each
    ensures SumBy(list, f) == Times(|list|, each)
  {
    if list == [] {
    } else {
      var n := |list| - 1;
      assert list[n] in list;
      SumOfEqual(list[..n], f, each);
    }
  }

  /** What a session adds up before its totals are rounded. */
  function RawTotal(policy: PricingPolicy, session: PricedSession, tariffs: seq<Tariff>): real
    requires Planned(session, tariffs, |session.periods|).Ok?
  {
    var dimensions := DimensionsOf(policy, Collect(Planned(session, tariffs, |session.periods|).value));
    RawExcl(dimensions) + RawVat(dimensions)
  }

  /** The extreme session of `n` periods at 100 percent adds up to `8n` times 10 to the 24th. */
  lemma ExtremeTotal(n: nat)
    ensures Planned(ExtremeSession(n), [ExtremeTariff(100.0)], n).Ok?
    ensures RawTotal(DEFAULT, ExtremeSession(n), [ExtremeTariff(100.0)]) == (8 * n) as real * EXTREME_CHARGE
  {
    hide Planned, Collect, ExtremeStretch, Extreme, DimensionsOf, BilledSegments, AllSegments, ExtremeTariff, Costed,
         RawExcl;
    var stretches := ExtremePlanned(n, 100.0);
    var segments := Collect(stretches);
    var dimensions := DimensionsOf(DEFAULT, segments);
    var costed := AllSegments(dimensions);
    ExtremeCount(stretches, 100.0);
    ExtremeSegments(stretches, 100.0);
    BilledExtreme(segments, 100.0);
    BilledCount(StepSize, segments);
    CostedSegments(DEFAULT, segments);
    RawExclIsCost(DEFAULT, segments);
    forall x | x in costed
      ensures Cost(x) == EXTREME_CHARGE && Tax(x) == EXTREME_CHARGE
    {
      var i :| 0 <= i < |costed| && costed[i] == x;
      ExtremeCosts(BilledSegments(StepSize, segments)[i]);
    }
    SumOfEqual(costed, Cost, EXTREME_CHARGE);
    SumOfEqual(costed, Tax, EXTREME_CHARGE);
    TimesProduct(4 * n, EXTREME_CHARGE);
  }

  // ---------------------------------------------------------------------------------------
  // The limits
  // ---------------------------------------------------------------------------------------

  /** A session of `n` periods that is accepted and priced, at rates of 0 to 100 percent. */
  predicate Accepted(session: PricedSession, tariffs: seq<Tariff>, n: nat) {
    && |session.periods| == n
    && CheckRange(session, tariffs)
    && (forall t :: t in tariffs ==> OrdinaryTerms(t))
    && Planned(session, tariffs, n).Ok?
    && Priced(DEFAULT, session, tariffs).Ok?
  }

  /** Whether every accepted session of `n` periods adds up to something a decimal holds. */
  ghost predicate EveryTotalFits(n: nat) {
    forall policy, session, tariffs :: Accepted(session, tariffs, n) ==> Fits(RawTotal(policy, session, tariffs))
  }

  /** The sums of every accepted session of `n` periods are in range exactly up to 9903 periods. */
  lemma TotalsFitExactly(n: nat)
    ensures EveryTotalFits(n) <==> n <= PERIODS_MAX
  {
    hide Planned, Collect, DimensionsOf, AllSegments, CheckRange, OrdinaryTerms, ExtremeTariff, Fits, Priced;
    if n <= PERIODS_MAX {
      forall policy, session, tariffs | Accepted(session, tariffs, n)
        ensures Fits(RawTotal(policy, session, tariffs))
      {
        var segments := Collect(Planned(session, tariffs, n).value);
        RawExclIsCost(policy, segments);
        EverySumFits(policy, session, tariffs, CostedOf(policy, session, tariffs));
      }
    } else {
      ExtremeTotal(n);
      ExtremeIsAccepted(n, 100.0);
      TooLarge(n);
      ExtremeIsPriced(n, 100.0);
      assert Accepted(ExtremeSession(n), [ExtremeTariff(100.0)], n);
    }
  }

  lemma TooLarge(n: nat)
    requires n > PERIODS_MAX
    ensures !Fits((8 * n) as real * EXTREME_CHARGE)
  {
    ScaleMonotone((8 * (PERIODS_MAX + 1)) as real, (8 * n) as real, EXTREME_CHARGE);
  }

  /**
   * The range check bounds a rate like any other figure, at 10 to the 12th percent; the product
   * of an accepted amount with such a rate is far out of range, with a single period.
   */
  lemma RatesNeedATighterBound()
    ensures var (session, tariffs) := (ExtremeSession(1), [ExtremeTariff(MAX_MAGNITUDE)]);
            && CheckRange(session, tariffs)
            && Planned(session, tariffs, 1).Ok?
            && BilledOf(DEFAULT, session, tariffs) != []
            && forall s :: s in BilledOf(DEFAULT, session, tariffs) ==>
                 s.priced.vat.Some? && !Fits(Stated(DEFAULT, s.priced) * s.priced.vat.value)
  {
    hide Planned, Collect, ExtremeStretch, BilledSegments, ExtremeTariff, Stated;
    ExtremeIsAccepted(1, MAX_MAGNITUDE);
    var stretches := ExtremePlanned(1, MAX_MAGNITUDE);
    var segments := Collect(stretches);
    ExtremeCount(stretches, MAX_MAGNITUDE);
    ExtremeSegments(stretches, MAX_MAGNITUDE);
    BilledExtreme(segments, MAX_MAGNITUDE);
    BilledCount(StepSize, segments);
    forall s | s in BilledSegments(StepSize, segments)
      ensures s.priced.vat.Some? && !Fits(Stated(DEFAULT, s.priced) * s.priced.vat.value)
    {
      ExtremeCharge(s, MAX_MAGNITUDE);
    }
  }

  // ---------------------------------------------------------------------------------------
  // The largest rate
  // ---------------------------------------------------------------------------------------

  /** Whether every amount of every accepted session can be multiplied by its rate, at rates of 0 to `rate` percent. */
  ghost predicate EveryProductFitsAt(rate: nat) {
    forall policy: PricingPolicy, session: PricedSession, tariffs, s ::
      CheckRange(session, tariffs) && (forall t :: t in tariffs ==> TermsUpTo(t, rate as real))
      && Planned(session, tariffs, |session.periods|).Ok? && s in BilledOf(policy, session, tariffs) ==>
        s.priced.vat.Some? ==> Fits(RateTimes(policy, s))
  }

  /** In blocks of 4.294 gigawatt-hours. */
  function BlockTariff(): Tariff {
    Tariff("T", None, None, None,
           [TariffElement([PriceComponent(Energy, MAX_MAGNITUDE, Some((RATE_MAX + 1) as real), 4294000000)], None)],
           No, None, None)
  }

  function BlockSession(): PricedSession {
    PricedSession(0, None, [PricedPeriod(0, MAX_MAGNITUDE, 0.0, 0.0, 0.0, None, None, None, None, None)],
                  (t: DateTime) => Some(LocalParts(0, 0, Monday)), None, false, false)
  }

  /** A trillion kilowatt-hours, billed as the blocks that cover them. */
  const BLOCKS := 1000003896000.0

  lemma BlockBilled()
    ensures Apply(StepSize, MAX_MAGNITUDE, 4294000000, 1000) == BLOCKS
  {
    ReadExactly(MAX_MAGNITUDE, 1000000000000000, 1000);
    assert Blocks(1000000000000000.0, 4294000000) == 232884 by {
      var q := 1000000000000000.0 / 4294000000.0;
      assert 232883.0 < q < 232884.0;
      assert q.Floor == 232883;
    }
  }

  lemma BlockSegment() returns (s: Segment)
    ensures Planned(BlockSession(), [BlockTariff()], 1).Ok?
    ensures s in BilledOf(DEFAULT, BlockSession(), [BlockTariff()])
    ensures s.priced.quantity == BLOCKS && s.priced.price == MAX_MAGNITUDE
    ensures s.priced.vat == Some((RATE_MAX + 1) as real)
  {
    assert OnePeriodUnder(BlockSession(), BlockTariff());
    var stretch := OnePeriodIsPlanned(BlockSession(), BlockTariff());
    var a := OnlyEnergy(stretch, BlockTariff().elements[0].components[0]);
    hide Planned, Collect, Stretch.Quantities, Stretch.FlatFee;
    OneStretch(stretch, a);
    s := OneBlock(a);
  }

  /** The only segment of a session is billed in blocks. */
  lemma OneBlock(a: Segment) returns (s: Segment)
    requires a.dimension == Energy && a.stepSize == 4294000000 && a.priced.quantity == MAX_MAGNITUDE
    ensures BilledSegments(StepSize, [a]) == [s] && s == a.(priced := a.priced.(quantity := BLOCKS))
  {
    BlockBilled();
    SingleGroup(a);
    SumOne(a, Quantity);
    hide Apply, Groups;
    s := a.(priced := a.priced.(quantity := BLOCKS));
    var (g, time) := (Group(Energy, [a]), QuantisedTime([a]));
    assert Adjusted(StepSize, Energy, [a], time) == [s];
    hide Adjusted, QuantisedTime;
    assert [g][..0] == [] && [] + [s] == [s];
    assert AllAdjusted(StepSize, [g], time) == [s];
  }

  lemma BlockProduct(s: Segment)
    requires s.priced.quantity == BLOCKS && s.priced.price == MAX_MAGNITUDE
    requires s.priced.vat == Some((RATE_MAX + 1) as real)
    ensures !Fits(RateTimes(DEFAULT, s))
  {
    hide PricingPolicy.RoundComponent, IsComponent;
    assert Charge(s.priced) == BLOCKS * MAX_MAGNITUDE;
    WholeAmount();
    ComponentIdentity(DEFAULT, BLOCKS * MAX_MAGNITUDE);
  }

  lemma WholeAmount()
    ensures IsComponent(DEFAULT, BLOCKS * MAX_MAGNITUDE)
  {
    assert Pow10(4) == 10000.0;
    WholeAt(BLOCKS * MAX_MAGNITUDE * 10000.0, 10000038960000000000000000000);
  }

  /** Every product fits exactly at rates of up to 79227 percent, in whole percents. */
  lemma ProductsFitExactly(rate: nat)
    ensures EveryProductFitsAt(rate) <==> rate <= RATE_MAX
  {
    hide Planned, CheckRange, TermsUpTo, BilledOf, Stated, Fits, BlockTariff, BlockSession;
    if rate <= RATE_MAX {
      forall policy: PricingPolicy, session: PricedSession, tariffs, s |
        CheckRange(session, tariffs) && (forall t :: t in tariffs ==> TermsUpTo(t, rate as real))
        && Planned(session, tariffs, |session.periods|).Ok? && s in BilledOf(policy, session, tariffs)
        && s.priced.vat.Some?
        ensures Fits(RateTimes(policy, s))
      {
        forall t | t in tariffs
          ensures TermsUpTo(t, RATE_MAX as real)
        {
          HigherTerms(t, rate as real, RATE_MAX as real);
        }
        EveryProductFits(policy, session, tariffs, s);
      }
    } else {
      var s := BlockSegment();
      BlockIsAccepted();
      HigherTerms(BlockTariff(), (RATE_MAX + 1) as real, rate as real);
      BlockProduct(s);
      var tariffs := [BlockTariff()];
      assert forall t :: t in tariffs ==> TermsUpTo(t, rate as real);
      assert Planned(BlockSession(), tariffs, |BlockSession().periods|).Ok?;
      assert s in BilledOf(DEFAULT, BlockSession(), tariffs);
    }
  }

  lemma HigherTerms(t: Tariff, low: real, high: real)
    requires TermsUpTo(t, low) && low <= high
    ensures TermsUpTo(t, high)
  {
  }

  lemma BlockIsAccepted()
    ensures CheckRange(BlockSession(), [BlockTariff()]) && TermsUpTo(BlockTariff(), (RATE_MAX + 1) as real)
    ensures |BlockSession().periods| == 1
  {
  }
}
