/**
 * What the linter's findings mean for whole pricing runs: `src/tariffs/lint.rs` against
 * `PricingEngine::price` of `src/tariffs/engine.rs`.
 */
module LintRuns {
  import opened Wrappers
  import opened Decimals
  import opened Sums
  import opened Grouping
  import opened Policy
  import opened Tariffs
  import opened Input
  import opened Lookup
  import opened Breakdown
  import opened Selection
  import opened Segments
  import opened Quantise
  import opened Price
  import opened Lint

  // ---------------------------------------------------------------------------------------
  // Dead components
  // ---------------------------------------------------------------------------------------

  /**
   * The segment names the component the engine selected for it in this stretch, and is a flat fee
   * or a quantity of the period that is not zero.
   */
  predicate SelectedIn(stretch: Stretch, s: Segment) {
    var at := s.priced.applied;
    && at.tariffId == stretch.plan.tariff.id
    && EngineLooksUp(s.dimension, at.reservation)
    && Selects(stretch.plan.tariff, s.dimension, stretch.plan.context.Reserving(at.reservation), at.element, at.index)
    && (s.dimension.Flat?
        || (Consumed(s.dimension, s.priced.quantity, at.reservation) in PeriodQuantities(stretch.period)
            && s.priced.quantity != 0.0))
  }

  /** Every segment of a run, flat fees included, comes from one of the lookups the engine makes. */
  lemma {:induction false} EverySegmentIsSelected(stretches: seq<Stretch>, s: Segment)
    requires s in Collect(stretches)
    ensures exists i :: 0 <= i < |stretches| && SelectedIn(stretches[i], s)
  {
    hide FlatSegment, QuantitySegments, SelectedIn;
    var n := |stretches| - 1;
    if s in Collect(stretches[..n]) {
      EverySegmentIsSelected(stretches[..n], s);
      var i :| 0 <= i < n && SelectedIn(stretches[..n][i], s);
      assert SelectedIn(stretches[i], s);
    } else if s in stretches[n].Quantities() {
      QuantitiesSelected(stretches[n], PeriodQuantities(stretches[n].period), s);
    } else {
      FlatSelected(stretches[n]);
    }
  }

  lemma FlatSelected(stretch: Stretch)
    requires stretch.FlatFee().Some?
    ensures SelectedIn(stretch, stretch.FlatFee().value)
  {
    hide FindComponent;
  }

  lemma {:induction false} QuantitiesSelected(stretch: Stretch, consumed: seq<Consumed>, s: Segment)
    requires forall c :: c in consumed ==> c in PeriodQuantities(stretch.period)
    requires s in QuantitySegments(stretch.plan, stretch.period, consumed)
    ensures SelectedIn(stretch, s)
  {
    hide PeriodQuantities, FindComponent;
    var c := consumed[|consumed| - 1];
    if QuantitySegment(stretch.plan, stretch.period, c) == Some(s) {
      EveryQuantityIsLookedUp(stretch.period);
    } else {
      QuantitiesSelected(stretch, consumed[..|consumed| - 1], s);
    }
  }

  /** The component a segment names is one of the stretch's tariff, and the linter does not call it dead. */
  predicate NamesLive(stretch: Stretch, at: Applied) {
    var tariff := stretch.plan.tariff;
    && at.tariffId == tariff.id
    && at.element < |tariff.elements| && at.index < |tariff.elements[at.element].components|
    && !Dead(tariff, at.element, at.index)
  }

  /** No segment of any run is priced by a component the linter calls dead. */
  lemma NoDeadSegment(stretches: seq<Stretch>, s: Segment)
    requires s in Collect(stretches)
    ensures exists i :: 0 <= i < |stretches| && NamesLive(stretches[i], s.priced.applied)
  {
    hide Dead, Collect, SelectedIn;
    EverySegmentIsSelected(stretches, s);
    var i :| 0 <= i < |stretches| && SelectedIn(stretches[i], s);
    SelectedIsLive(stretches[i], s);
  }

  lemma SelectedIsLive(stretch: Stretch, s: Segment)
    requires SelectedIn(stretch, s)
    ensures NamesLive(stretch, s.priced.applied)
  {
    hide Dead, FindComponent;
    var (tariff, at) := (stretch.plan.tariff, s.priced.applied);
    SelectedComponent(tariff, s.dimension, stretch.plan.context.Reserving(at.reservation), at.element, at.index);
    if Dead(tariff, at.element, at.index) {
      LintIsSound(tariff, at.element, at.index, stretch.plan.context);
    }
  }

  /** Costing and block billing keep the component each segment names. */
  lemma BilledKeepsApplied(q: Quantisation, segments: seq<Segment>, s: Segment)
    requires s in BilledSegments(q, segments)
    ensures exists was :: was in segments && was.priced.applied == s.priced.applied
  {
    hide AllAdjusted, Groups;
    AdjustedKeepsApplied(q, Groups(segments), QuantisedTime(segments), s);
    var g, was :| g in Groups(segments) && was in g.list && was.priced.applied == s.priced.applied;
    GroupsAreSegments(segments, g, was);
  }

  lemma GroupsAreSegments(segments: seq<Segment>, g: Group, s: Segment)
    requires g in Groups(segments) && s in g.list
    ensures s in segments
  {
    WithKeySound(segments, DimensionKey, g.dimension);
  }

  lemma {:induction false} AdjustedKeepsApplied(q: Quantisation, groups: seq<Group>, time: Option<Dimension>,
                                                s: Segment)
    requires s in AllAdjusted(q, groups, time)
    ensures exists g, was :: g in groups && was in g.list && was.priced.applied == s.priced.applied
  {
    hide BilledFor, SumBy;
    var n := |groups| - 1;
    var last := Adjusted(q, groups[n].dimension, groups[n].list, time);
    if s in last {
      var k :| 0 <= k < |last| && last[k] == s;
      assert groups[n].list[k] in groups[n].list && groups[n] in groups;
    } else {
      AdjustedKeepsApplied(q, groups[..n], time, s);
      var g, was :| g in groups[..n] && was in g.list && was.priced.applied == s.priced.applied;
      assert g in groups;
    }
  }

  /** Every charge names the component of a segment of the run. */
  lemma ChargeKeepsApplied(policy: PricingPolicy, segments: seq<Segment>, p: PricedSegment)
    requires p in AllSegments(DimensionsOf(policy, segments))
    ensures exists s :: s in segments && s.priced.applied == p.applied
  {
    hide DimensionsOf, Costed, BilledSegments, AllSegments;
    CostedSegments(policy, segments);
    var billed := BilledSegments(policy.quantisation, segments);
    var k :| 0 <= k < |billed| && p == Costed(policy, billed[k]);
    CostedKeepsTerms(policy, billed[k]);
    BilledKeepsApplied(policy.quantisation, segments, billed[k]);
  }

  /** In no breakdown of any session is anything priced by a component the linter calls dead. */
  lemma NoDeadCharge(policy: PricingPolicy, session: PricedSession, tariffs: seq<Tariff>, p: PricedSegment)
    requires Priced(policy, session, tariffs).Ok?
    requires p in AllSegments(Priced(policy, session, tariffs).value.dimensions)
    ensures Planned(session, tariffs, |session.periods|).Ok?
    ensures var stretches := Planned(session, tariffs, |session.periods|).value;
            exists i :: 0 <= i < |stretches| && NamesLive(stretches[i], p.applied)
  {
    hide Priced, Planned, Collect, DimensionsOf, NamesLive, AllSegments;
    PricedDimensions(policy, session, tariffs);
    var stretches := Planned(session, tariffs, |session.periods|).value;
    ChargeKeepsApplied(policy, Collect(stretches), p);
    var s :| s in Collect(stretches) && s.priced.applied == p.applied;
    NoDeadSegment(stretches, s);
  }

  // ---------------------------------------------------------------------------------------
  // The step size of charging time
  // ---------------------------------------------------------------------------------------

  /** The period has parking time, and something prices it. */
  predicate PricesParking(s: Stretch) {
    s.period.parkingHours != 0.0 && FindComponent(s.plan.tariff, ParkingTime, s.plan.context.Reserving(false)).Some?
  }

  lemma ParkingOfStretch(s: Stretch)
    ensures PricesParking(s) <==> exists x :: x in s.Quantities() && x.dimension == ParkingTime
  {
    hide FindComponent;
    var q := PeriodQuantities(s.period);
    if PricesParking(s) {
      var x := QuantitySegment(s.plan, s.period, q[3]).value;
      assert x in s.Quantities() && x.dimension == ParkingTime;
    }
    if x :| x in s.Quantities() && x.dimension == ParkingTime {
      QuantitiesSelected(s, q, x);
    }
  }

  /** Exactly the stretches that price parking time put it on the bill. */
  lemma ParkingIsCollected(stretches: seq<Stretch>)
    ensures OfDimension(Collect(stretches), ParkingTime) != [] <==> exists s :: s in stretches && PricesParking(s)
  {
    hide Collect, FindComponent, Stretch.Quantities, SelectedIn, PricesParking;
    var segments := Collect(stretches);
    var list := OfDimension(segments, ParkingTime);
    WithKeySound(segments, DimensionKey, ParkingTime);
    if list != [] {
      assert list[0] in list;
      EverySegmentIsSelected(stretches, list[0]);
      var i :| 0 <= i < |stretches| && SelectedIn(stretches[i], list[0]);
      SelectedParks(stretches[i], list[0]);
    }
    if s :| s in stretches && PricesParking(s) {
      ParkingOfStretch(s);
      var x :| x in s.Quantities() && x.dimension == ParkingTime;
      QuantitiesAreCollected(stretches, s, x);
    }
  }

  lemma SelectedParks(stretch: Stretch, s: Segment)
    requires SelectedIn(stretch, s) && s.dimension == ParkingTime
    ensures PricesParking(stretch)
  {
    hide FindComponent;
  }

  lemma {:induction false} QuantitiesAreCollected(stretches: seq<Stretch>, s: Stretch, x: Segment)
    requires s in stretches && x in s.Quantities()
    ensures x in Collect(stretches)
  {
    hide Stretch.Quantities, Stretch.FlatFee;
    var n := |stretches| - 1;
    if stretches[n] != s {
      assert s in stretches[..n];
      QuantitiesAreCollected(stretches[..n], s, x);
    }
  }

  /** A step size is reported unused exactly when it is one of TIME above 1, and the tariff prices parking anywhere. */
  lemma MeaningOfUnusedStep(tariff: Tariff, e: nat, c: nat)
    requires e < |tariff.elements| && c < |tariff.elements[e].components|
    ensures Finding(UnusedTimeStepSize, Component(e, c, "step_size")) in Findings(tariff)
            <==> tariff.elements[e].components[c].dimension.Time? && tariff.elements[e].components[c].stepSize > 1
                 && PricesAnywhere(tariff, ParkingTime)
  {
    hide Findings, PricesAnywhere, PricesIn, Claimed, ReservationFindings;
    var f := Finding(UnusedTimeStepSize, Component(e, c, "step_size"));
    FindingsOfElement(tariff, f);
    ReservationMember(tariff.elements[e], e, |tariff.elements[e].components|, f);
    assert f !in RestrictionFindings(tariff.elements[e], e);
    hide RestrictionFindings;
  }

  /** The step size a segment of a run carries is that of the component it names. */
  predicate StepOf(stretch: Stretch, s: Segment, step: nat) {
    var (elements, at) := (stretch.plan.tariff.elements, s.priced.applied);
    && at.element < |elements| && at.index < |elements[at.element].components|
    && elements[at.element].components[at.index].stepSize == step
  }

  /**
   * Whether a reported TIME step size is applied is decided by the session, not by the tariff: the
   * last stretch of time is billed in blocks of the step its own component names, exactly when no
   * period has parking time that something prices; else the time is billed as measured.
   */
  lemma StepIsAppliedUnlessParkingIsPriced(q: Quantisation, stretches: seq<Stretch>)
    requires OfDimension(Collect(stretches), Time) != []
    ensures var segments := Collect(stretches);
            var list := OfDimension(segments, Time);
            var last := list[|list| - 1];
            var (measured, billed) := (SumBy(list, Quantity), BilledFor(q, Time, list, QuantisedTime(segments)));
            && (IsQuantised(Time, QuantisedTime(segments)) <==> forall s :: s in stretches ==> !PricesParking(s))
            && (if exists s :: s in stretches && PricesParking(s) then billed == measured
                else billed == Apply(q, measured, last.stepSize, 3600))
            && exists i :: 0 <= i < |stretches| && PricedBy(stretches[i], last)
                           && StepOf(stretches[i], last, last.stepSize)
  {
    hide Collect, PricesParking, Apply, PricedBy;
    var segments := Collect(stretches);
    ParkingIsCollected(stretches);
    var list := OfDimension(segments, Time);
    var last := list[|list| - 1];
    WithKeySound(segments, DimensionKey, Time);
    assert last in list;
    AuditTrail(stretches, last);
    var i :| 0 <= i < |stretches| && PricedBy(stretches[i], last);
    StepIsNamed(stretches[i], last);
  }

  lemma StepIsNamed(stretch: Stretch, s: Segment)
    requires PricedBy(stretch, s) && !s.dimension.Flat?
    ensures StepOf(stretch, s, s.stepSize)
  {
  }

  // ---------------------------------------------------------------------------------------
  // A step size reported unused, and used
  // ---------------------------------------------------------------------------------------

  /** Charging time in blocks of an hour, and parking time by the second. */
  const STEPPED := [TariffElement([PriceComponent(Time, 2.0, None, 3600), PriceComponent(ParkingTime, 1.0, None, 1)],
                                  None)]

  /** Half an hour of charging and nothing else. */
  predicate HalfAnHour(p: PricedPeriod) {
    p.chargingHours == 0.5 && p.energyKwh == 0.0 && p.parkingHours == 0.0 && p.reservationHours == 0.0
  }

  /** A session of that one period under that one tariff. */
  ghost predicate SteppedSession(session: PricedSession, tariff: Tariff) {
    && OnePeriodUnder(session, tariff) && HalfAnHour(session.periods[0])
    && tariff.elements == STEPPED && tariff.minPrice.None? && tariff.maxPrice.None?
  }

  /** The step size of charging time is reported unused, and half an hour is billed as an hour. */
  lemma UnusedStepIsUsed(session: PricedSession, tariff: Tariff)
    requires SteppedSession(session, tariff)
    ensures Finding(UnusedTimeStepSize, Component(0, 0, "step_size")) in Findings(tariff)
    ensures Priced(DEFAULT, session, [tariff]).Ok?
    ensures exists d :: d in Priced(DEFAULT, session, [tariff]).value.dimensions
                        && d.dimension == Time && d.measured == 0.5 && d.billed == 1.0
  {
    SteppedFinding(tariff);
    assert CheckRange(session, [tariff]);
    hide CheckRange, Findings, Priced, Planned, Collect, DimensionsOf, DimensionOf;
    var s := SteppedCollected(session, tariff);
    OnePeriodIsPriced(DEFAULT, session, tariff);
    SteppedDimension(s);
  }

  /** It yields one segment, of half an hour with a step of an hour. */
  lemma SteppedCollected(session: PricedSession, tariff: Tariff) returns (s: Segment)
    requires SteppedSession(session, tariff)
    ensures Planned(session, [tariff], 1).Ok? && Collect(Planned(session, [tariff], 1).value) == [s]
    ensures s.dimension == Time && s.priced.quantity == 0.5 && s.stepSize == 3600
  {
    var stretch := OnePeriodIsPlanned(session, tariff);
    hide Planned;
    hide Collect, Stretch.Quantities, Stretch.FlatFee;
    s := SteppedSegment(stretch);
    OneStretch(stretch, s);
  }

  lemma SteppedSegment(stretch: Stretch) returns (s: Segment)
    requires HalfAnHour(stretch.period) && stretch.plan.tariff.elements == STEPPED
    ensures stretch.Quantities() == [s] && stretch.FlatFee().None?
    ensures s.dimension == Time && s.priced.quantity == 0.5 && s.stepSize == 3600
  {
    var (components, ctx) := (STEPPED[0].components, stretch.plan.context);
    assert FindInElement(components, Time) == Some(0);
    assert FindInElement(components, Flat).None?;
    assert Prices(STEPPED, 0, Time, ctx.Reserving(false));
    assert FindComponent(stretch.plan.tariff, Time, ctx.Reserving(false)) == Some(Found(components[0], 0, 0));
    assert forall reserving: bool :: FindComponent(stretch.plan.tariff, Flat, ctx.Reserving(reserving)).None?;
    hide FindComponent;
    QuantitiesOneByOne(stretch);
    s := QuantitySegment(stretch.plan, stretch.period, PeriodQuantities(stretch.period)[1]).value;
    assert [] + [s] + [] + [] == [s];
  }

  lemma SteppedDimension(s: Segment)
    requires s.dimension == Time && s.priced.quantity == 0.5 && s.stepSize == 3600
    ensures exists d :: d in DimensionsOf(DEFAULT, [s]) && d.dimension == Time && d.measured == 0.5 && d.billed == 1.0
  {
    OneGroup(s);
    HalfHourBilled();
    assert [s][..0] == [] && SumBy([s], Quantity) == 0.5;
    hide Costed, PricingPolicy.RoundComponent, PricingPolicy.RoundQuantity, Apply, Groups;
    var d := DimensionOf(DEFAULT, Group(Time, [s]), Some(Time));
    assert DimensionsOf(DEFAULT, [s])[0] == d;
  }

  lemma OneGroup(s: Segment)
    requires s.dimension == Time
    ensures Groups([s]) == [Group(Time, [s])] && QuantisedTime([s]) == Some(Time)
  {
    SingleGroup(s);
    assert [] + [s] == [s];
    WithKeyStep([], s, DimensionKey, Time);
    WithKeyStep([], s, DimensionKey, ParkingTime);
    assert OfDimension([s], Time) == [s] && OfDimension([s], ParkingTime) == [];
  }

  /** Half an hour in blocks of 3600 seconds is one block: an hour. */
  lemma HalfHourBilled()
    ensures Apply(StepSize, 0.5, 3600, 3600) == 1.0
    ensures DEFAULT.RoundQuantity(0.5) == 0.5 && DEFAULT.RoundQuantity(1.0) == 1.0
  {
    MillionthsAreExact(0.5, 500000);
    MillionthsAreExact(1.0, 1000000);
    ReadExactly(0.5, 1800, 3600);
    assert Blocks(1800.0, 3600) == 1 by {
      assert 1800.0 / 3600.0 == 0.5;
    }
  }

  lemma MillionthsAreExact(x: real, n: int)
    requires x * 1000000.0 == n as real
    ensures DEFAULT.RoundQuantity(x) == x
  {
    assert Pow10(6) == 1000000.0 by {
      assert Pow10(3) == 1000.0;
    }
    WholeAt(x * 1000000.0, n);
    RoundIdentity(DEFAULT.rounding, 1000000.0, x);
  }

  lemma SteppedFinding(tariff: Tariff)
    requires tariff.elements == STEPPED
    ensures Finding(UnusedTimeStepSize, Component(0, 0, "step_size")) in Findings(tariff)
  {
    hide Findings;
    assert tariff.elements[0].components[1].dimension == ParkingTime;
    MeaningOfUnusedStep(tariff, 0, 0);
  }
}
