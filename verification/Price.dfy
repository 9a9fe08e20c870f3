/** Pricing a session end to end: `PricingEngine::price` of `src/tariffs/engine.rs`. */
module Price {
  import opened Wrappers
  import opened Sums
  import opened Policy
  import opened Tariffs
  import opened Input
  import opened Lookup
  import opened Breakdown
  import opened Selection
  import opened Segments
  import opened Quantise
  import opened TaxLines
  import opened Finish

  /** What a planned session finishes as, under the limits of `tariff`. */
  function Assemble(policy: PricingPolicy, session: PricedSession, stretches: seq<Stretch>,
      tariff: Tariff): CostBreakdown {
    var dimensions := DimensionsOf(policy, Collect(stretches));
    Finished(policy, dimensions, tariff,
             NoteSplits(OrderNotes(session) + CollectNotes(stretches), AllSegments(dimensions)))
  }

  /** The breakdown of a session, or why it has none. */
  function Priced(policy: PricingPolicy, session: PricedSession, tariffs: seq<Tariff>):
    Result<CostBreakdown, PricingError>
  {
    if tariffs == [] then Err(NoTariff)
    else if !CheckRange(session, tariffs) then Err(OutOfRange)
    else
      var stretches :- Planned(session, tariffs, |session.periods|);
      var tariff :- SelectByPreference(Wanted(session), session.start, tariffs);
      Ok(Assemble(policy, session, stretches, tariff))
  }

  /** Prices `session` against `tariffs`. */
  method PriceSession(policy: PricingPolicy, session: PricedSession, tariffs: seq<Tariff>)
    returns (r: Result<CostBreakdown, PricingError>)
    ensures r == Priced(policy, session, tariffs)
  {
    hide CheckRange, SelectByPreference, Planned, Collect, CollectNotes, OrderNotes, Finished, DimensionsOf, NoteSplits;
    if tariffs == [] {
      return Err(NoTariff);
    }
    var inRange := CheckRange(session, tariffs);
    if !inRange {
      return Err(OutOfRange);
    }
    var error, segments, notes, stretches := CollectSegments(session, tariffs);
    if error.Some? {
      return Err(error.value);
    }
    var dimensions, notes' := QuantiseAndCost(policy, segments, notes);
    var tariff := SelectByPreference(Wanted(session), session.start, tariffs);
    if tariff.Err? {
      return Err(tariff.error);
    }
    var b := FinishBreakdown(policy, dimensions, tariff.value, notes');
    r := Ok(b);
  }

  /**
   * For every session, tariff list and policy that can be priced, the published tax lines sum to
   * exactly the difference of the two totals, which are in order.
   */
  lemma EveryBreakdownAddsUp(policy: PricingPolicy, session: PricedSession, tariffs: seq<Tariff>)
    requires Priced(policy, session, tariffs).Ok?
    ensures var b := Priced(policy, session, tariffs).value;
            b.TotalVat() == b.totalInclVat - b.totalExclVat && b.totalInclVat >= b.totalExclVat
  {
    hide CheckRange, SelectByPreference, Planned, Collect, CollectNotes, OrderNotes, Finished, DimensionsOf, NoteSplits;
    var stretches := Planned(session, tariffs, |session.periods|).value;
    var tariff := SelectByPreference(Wanted(session), session.start, tariffs).value;
    var dimensions := DimensionsOf(policy, Collect(stretches));
    TaxLinesAccountForTheTotals(policy, dimensions, tariff,
      NoteSplits(OrderNotes(session) + CollectNotes(stretches), AllSegments(dimensions)));
  }

  /** The dimensions of a breakdown are those of the segments of the session. */
  lemma PricedDimensions(policy: PricingPolicy, session: PricedSession, tariffs: seq<Tariff>)
    requires Priced(policy, session, tariffs).Ok?
    ensures Planned(session, tariffs, |session.periods|).Ok?
    ensures Priced(policy, session, tariffs).value.dimensions
            == DimensionsOf(policy, Collect(Planned(session, tariffs, |session.periods|).value))
  {
    hide CheckRange, SelectByPreference, Planned, Collect, CollectNotes, OrderNotes, DimensionsOf, NoteSplits;
  }

  // ---------------------------------------------------------------------------------------
  // Sessions of one period
  // ---------------------------------------------------------------------------------------

  /** A session of one period, in a zone that can always be resolved, under a tariff always in force. */
  ghost predicate OnePeriodUnder(session: PricedSession, tariff: Tariff) {
    && |session.periods| == 1 && session.periods[0].tariffId.None?
    && tariff.start.None? && tariff.end.None?
    && forall t :: session.zone(t).Some?
  }

  lemma OnePeriodIsPlanned(session: PricedSession, tariff: Tariff) returns (stretch: Stretch)
    requires OnePeriodUnder(session, tariff)
    ensures Planned(session, [tariff], 1) == Ok([stretch])
    ensures stretch.period == session.periods[0] && stretch.plan.tariff == tariff
  {
    assert SelectByPreference(Wanted(session), session.periods[0].start, [tariff]).Ok? by {
      assert [tariff][0].IsActiveAt(session.periods[0].start);
    }
    hide SelectByPreference;
    var plan := PlanOf(session, [tariff], 0);
    stretch := Stretch(plan.value, session.periods[0]);
    assert Planned(session, [tariff], 0) == Ok([]);
    assert [] + [stretch] == [stretch];
  }

  lemma OnePeriodIsPriced(policy: PricingPolicy, session: PricedSession, tariff: Tariff)
    requires OnePeriodUnder(session, tariff) && CheckRange(session, [tariff])
    ensures Planned(session, [tariff], 1).Ok?
    ensures Priced(policy, session, [tariff]).Ok?
    ensures Priced(policy, session, [tariff]).value.dimensions
            == DimensionsOf(policy, Collect(Planned(session, [tariff], 1).value))
  {
    hide Collect, CollectNotes, OrderNotes, DimensionsOf, NoteSplits, Planned, CheckRange, SelectByPreference;
    var stretch := OnePeriodIsPlanned(session, tariff);
    assert [tariff][0].IsActiveAt(session.start);
  }

  /** The segment of a period that charges energy and nothing else, under a tariff of one component for it. */
  lemma OnlyEnergy(stretch: Stretch, c: PriceComponent) returns (s: Segment)
    requires stretch.plan.tariff.elements == [TariffElement([c], None)] && c.dimension.Energy?
    requires stretch.period.energyKwh != 0.0
    requires stretch.period.chargingHours == stretch.period.parkingHours == stretch.period.reservationHours == 0.0
    ensures stretch.Quantities() == [s] && stretch.FlatFee().None?
    ensures s.dimension == Energy && s.stepSize == c.stepSize && s.priced.quantity == stretch.period.energyKwh
    ensures s.priced.price == c.price && s.priced.vat == c.vat && s.priced.basis == BasisOf(stretch.plan.tariff)
  {
    var (tariff, ctx) := (stretch.plan.tariff, stretch.plan.context);
    assert FindInElement([c], Energy) == Some(0) && FindInElement([c], Flat).None?;
    assert Prices(tariff.elements, 0, Energy, ctx.Reserving(false));
    assert FindComponent(tariff, Energy, ctx.Reserving(false)) == Some(Found(c, 0, 0));
    assert forall reserving: bool :: FindComponent(tariff, Flat, ctx.Reserving(reserving)).None?;
    hide FindComponent;
    QuantitiesOneByOne(stretch);
    s := QuantitySegment(stretch.plan, stretch.period, PeriodQuantities(stretch.period)[0]).value;
    assert [s] + [] + [] + [] == [s];
  }

  lemma OneStretch(stretch: Stretch, s: Segment)
    requires stretch.Quantities() == [s] && stretch.FlatFee().None?
    ensures Collect([stretch]) == [s]
  {
    hide Stretch.Quantities, Stretch.FlatFee;
    assert [stretch][..0] == [] && Collect([stretch][..0]) == [];
    assert [] + [s] == [s] && [s] + [] == [s];
  }

  // ---------------------------------------------------------------------------------------
  // Conservation of the amounts the components state
  // ---------------------------------------------------------------------------------------

  /** The segments of the listed groups as they are costed. */
  function AllAdjusted(q: Quantisation, groups: seq<Group>, time: Option<Dimension>): seq<Segment> {
    if groups == [] then []
    else
      var n := |groups| - 1;
      AllAdjusted(q, groups[..n], time) + Adjusted(q, groups[n].dimension, groups[n].list, time)
  }

  /** The segments of a session as they are costed: only the last of each dimension is changed. */
  function BilledSegments(q: Quantisation, segments: seq<Segment>): seq<Segment> {
    AllAdjusted(q, Groups(segments), QuantisedTime(segments))
  }

  /** The costed segments of a session, dimension after dimension. */
  lemma CostedSegments(policy: PricingPolicy, segments: seq<Segment>)
    ensures AllSegments(DimensionsOf(policy, segments))
            == CostedAll(policy, BilledSegments(policy.quantisation, segments))
  {
    CostedGroups(policy, Groups(segments), QuantisedTime(segments), DimensionsOf(policy, segments));
  }

  lemma {:induction false} CostedGroups(policy: PricingPolicy, groups: seq<Group>, time: Option<Dimension>,
                                        dimensions: seq<DimensionCost>)
    requires |dimensions| == |groups|
    requires forall i :: 0 <= i < |groups| ==> dimensions[i] == DimensionOf(policy, groups[i], time)
    ensures AllSegments(dimensions) == CostedAll(policy, AllAdjusted(policy.quantisation, groups, time))
  {
    hide Adjusted, Costed, PricingPolicy.RoundComponent, PricingPolicy.RoundQuantity, BilledFor, SumBy;
    if groups == [] {
    } else {
      CostedGroups(policy, groups[..|groups| - 1], time, dimensions[..|groups| - 1]);
    }
  }

  lemma {:induction false} GroupCosts(policy: PricingPolicy, groups: seq<Group>, time: Option<Dimension>,
                                      dimensions: seq<DimensionCost>)
    requires |dimensions| == |groups|
    requires forall i :: 0 <= i < |groups| ==> dimensions[i] == DimensionOf(policy, groups[i], time)
    ensures RawExcl(dimensions) == SumBy(AllSegments(dimensions), Cost)
  {
    hide DimensionOf;
    if groups == [] {
    } else {
      var n := |groups| - 1;
      GroupCosts(policy, groups[..n], time, dimensions[..n]);
      DimensionCostExact(policy, groups[n], time);
      SumConcat(AllSegments(dimensions[..n]), dimensions[n].segments, Cost);
    }
  }

  /** The pre-tax total is built from exactly the segments' costs. */
  lemma RawExclIsCost(policy: PricingPolicy, segments: seq<Segment>)
    ensures RawExcl(DimensionsOf(policy, segments)) == SumBy(AllSegments(DimensionsOf(policy, segments)), Cost)
  {
    hide DimensionOf;
    GroupCosts(policy, Groups(segments), QuantisedTime(segments), DimensionsOf(policy, segments));
  }

  /** What the component of a costed segment stated. */
  function StatedBy(policy: PricingPolicy): Segment -> real {
    (s: Segment) => Stated(policy, s.priced)
  }

  /** With tax-included prices only, net and tax together are what the components state. */
  lemma RawTotalIsStated(policy: PricingPolicy, segments: seq<Segment>)
    requires forall s :: s in BilledSegments(policy.quantisation, segments) ==> s.priced.basis.Included?
    ensures var dimensions := DimensionsOf(policy, segments);
            RawExcl(dimensions) + RawVat(dimensions)
            == SumBy(BilledSegments(policy.quantisation, segments), StatedBy(policy))
  {
    hide BilledSegments, Costed, Stated, DimensionsOf;
    var billed := BilledSegments(policy.quantisation, segments);
    var costed := AllSegments(DimensionsOf(policy, segments));
    RawExclIsCost(policy, segments);
    CostedSegments(policy, segments);
    SumAdd(costed, Cost, Tax, Gross);
    forall i | 0 <= i < |billed|
      ensures Gross(costed[i]) == StatedBy(policy)(billed[i])
    {
      IncludedIsExact(policy, billed[i]);
    }
    SumCongruent(costed, Gross, billed, StatedBy(policy));
  }

  /**
   * Gross amounts are conserved: with tax-included prices only and no price limit, the inclusive
   * total is the rounded sum of what the components state, whatever the mix of rates, unless the
   * tax they describe is negative.
   */
  lemma GrossConserved(policy: PricingPolicy, segments: seq<Segment>, tariff: Tariff, notes: seq<Note>)
    requires forall s :: s in BilledSegments(policy.quantisation, segments) ==> s.priced.basis.Included?
    requires tariff.minPrice.None? && tariff.maxPrice.None?
    ensures var b := Finished(policy, DimensionsOf(policy, segments), tariff, notes);
            var stated := policy.RoundCurrency(SumBy(BilledSegments(policy.quantisation, segments), StatedBy(policy)));
            var raw := RawExcl(DimensionsOf(policy, segments));
            b.totalInclVat == stated <==> policy.RoundCurrency(raw) <= stated
  {
    hide BilledSegments, DimensionsOf, PricingPolicy.RoundCurrency, Presented, FinishNotes;
    var dimensions := DimensionsOf(policy, segments);
    RawTotalIsStated(policy, segments);
    UnclampedTotals(policy, tariff, RawExcl(dimensions), RawVat(dimensions));
  }

  lemma PlanInTariffs(session: PricedSession, tariffs: seq<Tariff>, i: nat)
    requires i < |session.periods| && PlanOf(session, tariffs, i).Ok?
    ensures PlanOf(session, tariffs, i).value.tariff in tariffs
  {
  }

  lemma NonNegativeProduct(x: real, y: real)
    requires x >= 0.0 && y >= 0.0
    ensures x * y >= 0.0
  {
  }
}
