/**
 * At which moment of a session a period's components are looked up: with what was charged and how
 * long it lasted before the period, and at the wall clock where it starts. Over
 * `RestrictionContext::build` and `build_at_end` of `src/tariffs/engine.rs`.
 */
module Moments {
  import opened Wrappers
  import opened Sums
  import opened Tariffs
  import opened Input
  import opened Lookup
  import opened Breakdown
  import opened Selection
  import opened Segments
  import opened Grouping
  import opened Policy
  import opened Quantise
  import opened Price

  // ---------------------------------------------------------------------------------------
  // Restrictions in terms of the session
  // ---------------------------------------------------------------------------------------

  /** A figure measured from `low` to `high` reaches a minimum and stays under a maximum. */
  predicate Between(min: Option<real>, max: Option<real>, low: Option<real>, high: Option<real>) {
    var (reached, kept) := (if high.Some? then high else low, if low.Some? then low else high);
    && (min.Some? ==> reached.Some? && min.value <= reached.value)
    && (max.Some? ==> kept.Some? && kept.value < max.value)
  }

  /** Every bound but the reservation, given a wall clock, what was charged, and how many seconds passed. */
  predicate HoldsGiven(r: Restrictions, local: LocalParts, kwh: real, seconds: int, p: PricedPeriod) {
    && (r.startTime.Some? && r.endTime.Some? ==>
          var (s, e) := (r.startTime.value, r.endTime.value);
          s == e || (s < e && s <= local.time < e) || (e < s && (s <= local.time || local.time < e)))
    && (r.startTime.Some? && r.endTime.None? ==> r.startTime.value <= local.time)
    && (r.startTime.None? && r.endTime.Some? ==> local.time < r.endTime.value)
    && (r.startDate.Some? ==> r.startDate.value <= local.date)
    && (r.endDate.Some? ==> local.date < r.endDate.value)
    && (r.dayOfWeek != [] ==> local.weekday in r.dayOfWeek)
    && (r.minKwh.Some? ==> r.minKwh.value <= kwh)
    && (r.maxKwh.Some? ==> kwh < r.maxKwh.value)
    && (r.minDuration.Some? ==> r.minDuration.value <= seconds || (r.minDuration.value > I64_MAX && I64_MAX <= seconds))
    && (r.maxDuration.Some? ==> seconds < r.maxDuration.value && seconds < I64_MAX)
    && Between(r.minCurrent, r.maxCurrent, p.minCurrent, p.maxCurrent)
    && Between(r.minPower, r.maxPower, p.minPower, p.maxPower)
  }

  const SECOND := 1000000000

  /** The whole seconds from the start of the session to an instant. */
  function SecondsTo(session: PricedSession, at: DateTime): int {
    at / SECOND - session.start / SECOND
  }

  /** What the periods before period `i` charged. */
  function ChargedBefore(session: PricedSession, i: nat): real
    requires i <= |session.periods|
  {
    SumBy(session.periods[..i], EnergyKwh)
  }

  /** The bounds hold at the start of period `i`. */
  predicate HoldsAt(r: Restrictions, session: PricedSession, i: nat)
    requires i < |session.periods|
  {
    var (p, local) := (session.periods[i], session.zone(session.periods[i].start));
    local.Some? && HoldsGiven(r, local.value, ChargedBefore(session, i), SecondsTo(session, p.start), p)
  }

  /** The last instant of period `i` that is looked at: one second before it ends. */
  function LastSecond(session: PricedSession, i: nat): Option<DateTime>
    requires i < |session.periods|
  {
    var end := if i + 1 < |session.periods| then Some(session.periods[i + 1].start) else session.end;
    if end.None? then None
    else
      var last := (end.value / SECOND - 1) * SECOND;
      if last <= session.periods[i].start then None else Some(last)
  }

  /** The bounds hold at an instant of period `i` by which it has charged all it does. */
  predicate HoldsAtEnd(r: Restrictions, session: PricedSession, i: nat, last: DateTime)
    requires i < |session.periods|
  {
    var (p, local) := (session.periods[i], session.zone(last));
    && local.Some?
    && HoldsGiven(r, local.value, ChargedBefore(session, i) + p.energyKwh, SecondsTo(session, last), p)
  }

  /** The reservation restriction an element must carry for the kind of time priced. */
  function Wants(session: PricedSession, reserving: bool): Option<ReservationRestriction> {
    if !reserving then None else if session.reservationExpired then Some(ReservationExpires) else Some(Reservation)
  }

  /** The element is active for period `i`. */
  predicate ElementHolds(element: TariffElement, session: PricedSession, i: nat, reserving: bool)
    requires i < |session.periods|
  {
    match element.restrictions
    case None => !reserving
    case Some(r) => r.reservation == Wants(session, reserving) && HoldsAt(r, session, i)
  }

  predicate HasComponent(element: TariffElement, d: Dimension) {
    exists k :: 0 <= k < |element.components| && element.components[k].dimension == d
  }

  /** Element `e` is the first of the tariff that is active for period `i` and prices `d`. */
  predicate FirstHolding(tariff: Tariff, session: PricedSession, i: nat, reserving: bool, d: Dimension, e: nat)
    requires i < |session.periods|
  {
    && e < |tariff.elements| && ElementHolds(tariff.elements[e], session, i, reserving)
    && HasComponent(tariff.elements[e], d)
    && forall j :: 0 <= j < e ==>
         !(ElementHolds(tariff.elements[j], session, i, reserving) && HasComponent(tariff.elements[j], d))
  }

  // ---------------------------------------------------------------------------------------
  // The moment of a period
  // ---------------------------------------------------------------------------------------

  /** A restriction matches at the start of a period exactly when its bounds hold there. */
  lemma MatchesAtStart(session: PricedSession, i: nat, r: Restrictions, reserving: bool)
    requires i < |session.periods| && ContextAtStart(session, i).Some?
    ensures Matches(r, ContextAtStart(session, i).value.Reserving(reserving))
            <==> r.reservation == Wants(session, reserving) && HoldsAt(r, session, i)
  {
    hide SumBy;
  }

  lemma MatchesAtEnd(session: PricedSession, i: nat, r: Restrictions, reserving: bool)
    requires i < |session.periods| && ContextAtEnd(session, i).Some?
    ensures ContextAtEnd(session, i).value.Some? <==> LastSecond(session, i).Some?
    ensures LastSecond(session, i).Some? ==>
              (Matches(r, ContextAtEnd(session, i).value.value.Reserving(reserving))
               <==> r.reservation == Wants(session, reserving)
                    && HoldsAtEnd(r, session, i, LastSecond(session, i).value))
  {
    hide SumBy;
  }

  lemma ActiveAtStart(session: PricedSession, i: nat, element: TariffElement, reserving: bool)
    requires i < |session.periods| && ContextAtStart(session, i).Some?
    ensures RestrictionsMatch(element, ContextAtStart(session, i).value.Reserving(reserving))
            <==> ElementHolds(element, session, i, reserving)
  {
    hide Matches, HoldsAt, Wants, ContextAtStart;
    if element.restrictions.Some? {
      MatchesAtStart(session, i, element.restrictions.value, reserving);
    } else {
      assert ContextAtStart(session, i).value.Reserving(reserving).isReservation == reserving;
    }
  }

  lemma ComponentIn(element: TariffElement, d: Dimension)
    ensures FindInElement(element.components, d).Some? <==> HasComponent(element, d)
  {
  }

  /** The component found for a period is in the first element that is active for it and prices the dimension. */
  lemma FoundAtStart(tariff: Tariff, session: PricedSession, i: nat, reserving: bool, d: Dimension)
    requires i < |session.periods| && ContextAtStart(session, i).Some?
    ensures var found := FindComponent(tariff, d, ContextAtStart(session, i).value.Reserving(reserving));
            && (found.Some? <==> exists e :: FirstHolding(tariff, session, i, reserving, d, e))
            && (found.Some? ==> FirstHolding(tariff, session, i, reserving, d, found.value.element))
  {
    hide ElementHolds, RestrictionsMatch, HasComponent, FindInElement;
    var ctx := ContextAtStart(session, i).value.Reserving(reserving);
    hide ContextAtStart;
    forall e | 0 <= e < |tariff.elements|
      ensures Prices(tariff.elements, e, d, ctx)
              <==> ElementHolds(tariff.elements[e], session, i, reserving) && HasComponent(tariff.elements[e], d)
    {
      ActiveAtStart(session, i, tariff.elements[e], reserving);
      ComponentIn(tariff.elements[e], d);
    }
    var found := FindComponent(tariff, d, ctx);
    hide Prices;
    if found.Some? {
      assert FirstHolding(tariff, session, i, reserving, d, found.value.element);
    }
    if e: nat :| FirstHolding(tariff, session, i, reserving, d, e) {
      assert Prices(tariff.elements, e, d, ctx) && found.Some?;
    }
  }

  /** The contexts a planned period is priced in are those of its own start and end. */
  lemma PlannedAt(session: PricedSession, tariffs: seq<Tariff>, stretches: seq<Stretch>, i: nat)
    requires Planned(session, tariffs, |session.periods|) == Ok(stretches) && i < |session.periods|
    ensures |stretches| == |session.periods| && stretches[i].period == session.periods[i]
    ensures ContextAtStart(session, i) == Some(stretches[i].plan.context)
    ensures ContextAtEnd(session, i) == Some(stretches[i].plan.endContext)
  {
    PlannedMeaning(session, tariffs, |session.periods|);
    hide Planned, ContextAtStart, ContextAtEnd, SelectTariff;
    assert PlanOf(session, tariffs, i) == Ok(stretches[i].plan);
  }

  // ---------------------------------------------------------------------------------------
  // Which component prices a period
  // ---------------------------------------------------------------------------------------

  /**
   * A quantity of a planned period is priced exactly when it is not zero and some element holds at
   * the start of the period and prices its dimension, and then by the first such element: the
   * energy and the seconds that count are those before the period, the clock that of its start.
   */
  lemma PricedByFirstHolding(session: PricedSession, tariffs: seq<Tariff>, stretches: seq<Stretch>, i: nat, k: nat)
    requires Planned(session, tariffs, |session.periods|) == Ok(stretches) && i < |stretches| && k < 4
    ensures var (plan, c) := (stretches[i].plan, PeriodQuantities(session.periods[i])[k]);
            var s := QuantitySegment(plan, session.periods[i], c);
            && (s.Some? <==> c.quantity != 0.0
                             && exists e :: FirstHolding(plan.tariff, session, i, c.reserving, c.dimension, e))
            && (s.Some? ==> FirstHolding(plan.tariff, session, i, c.reserving, c.dimension,
                                         s.value.priced.applied.element))
            && (QuantityNote(plan, session.periods[i], c)
                == Some(Note(NoPriceComponent, Some(session.periods[i].start)))
                <==> c.quantity != 0.0 && s.None?)
  {
    hide Planned, ContextAtStart, ContextAtEnd, FindComponent, FirstHolding, PeriodQuantities;
    PlannedAt(session, tariffs, stretches, i);
    var c := PeriodQuantities(session.periods[i])[k];
    FoundAtStart(stretches[i].plan.tariff, session, i, c.reserving, c.dimension);
  }

  /** A flat fee likewise: that of the session's own time, or of its reserved time when there is none and it has any. */
  lemma FlatByFirstHolding(session: PricedSession, tariffs: seq<Tariff>, stretches: seq<Stretch>, i: nat)
    requires Planned(session, tariffs, |session.periods|) == Ok(stretches) && i < |stretches|
    ensures var (tariff, fee) := (stretches[i].plan.tariff, stretches[i].FlatFee());
            var holds := (reserving: bool) => exists e :: FirstHolding(tariff, session, i, reserving, Flat, e);
            && (fee.Some? <==> holds(false) || (session.periods[i].reservationHours != 0.0 && holds(true)))
            && (fee.Some? ==>
                  var at := fee.value.priced.applied;
                  FirstHolding(tariff, session, i, at.reservation, Flat, at.element)
                  && (at.reservation <==> !holds(false)))
  {
    hide Planned, ContextAtStart, ContextAtEnd, FindComponent, FirstHolding;
    PlannedAt(session, tariffs, stretches, i);
    FoundAtStart(stretches[i].plan.tariff, session, i, false, Flat);
    FoundAtStart(stretches[i].plan.tariff, session, i, true, Flat);
  }

  /** Two elements that price `d`: one while `r` holds, and a fallback. */
  predicate Tiered(tariff: Tariff, d: Dimension, r: Restrictions) {
    && |tariff.elements| == 2
    && tariff.elements[0].restrictions == Some(r) && r.reservation.None? && HasComponent(tariff.elements[0], d)
    && tariff.elements[1].restrictions.None? && HasComponent(tariff.elements[1], d)
  }

  /** Under a tier and a fallback a period is priced by the tier exactly when the tier holds at its start. */
  lemma TierOfPeriod(session: PricedSession, tariffs: seq<Tariff>, stretches: seq<Stretch>, i: nat, k: nat,
                     r: Restrictions)
    requires Planned(session, tariffs, |session.periods|) == Ok(stretches) && i < |stretches| && k < 4
    requires var c := PeriodQuantities(session.periods[i])[k];
             !c.reserving && c.quantity != 0.0 && Tiered(stretches[i].plan.tariff, c.dimension, r)
    ensures var s := QuantitySegment(stretches[i].plan, session.periods[i], PeriodQuantities(session.periods[i])[k]);
            s.Some? && s.value.priced.applied.element == if HoldsAt(r, session, i) then 0 else 1
  {
    hide Planned, HoldsAt, HasComponent, QuantitySegment, PeriodQuantities;
    PricedByFirstHolding(session, tariffs, stretches, i, k);
    PlannedAt(session, tariffs, stretches, i);
    var (tariff, c) := (stretches[i].plan.tariff, PeriodQuantities(session.periods[i])[k]);
    assert FirstHolding(tariff, session, i, c.reserving, c.dimension, if HoldsAt(r, session, i) then 0 else 1);
  }

  /** A tier up to `kwh` prices exactly the periods before which less than that was charged. */
  lemma TierOfEnergy(session: PricedSession, i: nat, kwh: real)
    requires i < |session.periods| && session.zone(session.periods[i].start).Some?
    ensures HoldsAt(UNRESTRICTED.(maxKwh := Some(kwh)), session, i)
            <==> SumBy(session.periods[..i], EnergyKwh) < kwh
    ensures HoldsAt(UNRESTRICTED.(minKwh := Some(kwh)), session, i)
            <==> kwh <= SumBy(session.periods[..i], EnergyKwh)
  {
    hide SumBy;
  }

  /** A tier of `seconds` from the start of the session, or up to them, likewise. */
  lemma TierOfDuration(session: PricedSession, i: nat, seconds: nat)
    requires i < |session.periods| && session.zone(session.periods[i].start).Some? && seconds <= I64_MAX
    ensures var passed := session.periods[i].start / SECOND - session.start / SECOND;
            && (HoldsAt(UNRESTRICTED.(maxDuration := Some(seconds)), session, i) <==> passed < seconds)
            && (HoldsAt(UNRESTRICTED.(minDuration := Some(seconds)), session, i) <==> seconds <= passed)
  {
    hide SumBy;
  }

  /** Tiers by the clock go by the wall clock where the period starts. */
  lemma TierOfClock(session: PricedSession, i: nat, minute: nat, day: int, weekdays: seq<DayOfWeek>)
    requires i < |session.periods| && session.zone(session.periods[i].start).Some?
    ensures var local := session.zone(session.periods[i].start).value;
            && (HoldsAt(UNRESTRICTED.(endTime := Some(minute)), session, i) <==> local.time < minute)
            && (HoldsAt(UNRESTRICTED.(startTime := Some(minute)), session, i) <==> minute <= local.time)
            && (HoldsAt(UNRESTRICTED.(endDate := Some(day)), session, i) <==> local.date < day)
            && (HoldsAt(UNRESTRICTED.(startDate := Some(day)), session, i) <==> day <= local.date)
            && (HoldsAt(UNRESTRICTED.(dayOfWeek := weekdays), session, i)
                <==> weekdays == [] || local.weekday in weekdays)
  {
    hide SumBy;
  }

  /** Nothing is used at the first period, and from each to the next what the first of them used. */
  lemma UsedStepByStep(session: PricedSession, tariffs: seq<Tariff>, stretches: seq<Stretch>, i: nat)
    requires Planned(session, tariffs, |session.periods|) == Ok(stretches) && i < |stretches|
    ensures stretches[0].plan.context.energySoFar == 0.0
    ensures i + 1 < |stretches| ==>
              && stretches[i + 1].plan.context.energySoFar
                 == stretches[i].plan.context.energySoFar + session.periods[i].energyKwh
              && stretches[i + 1].plan.context.durationSoFar - stretches[i].plan.context.durationSoFar
                 == session.periods[i + 1].start / SECOND - session.periods[i].start / SECOND
  {
    hide Planned;
    PlannedAt(session, tariffs, stretches, 0);
    PlannedAt(session, tariffs, stretches, i);
    if i + 1 < |stretches| {
      PlannedAt(session, tariffs, stretches, i + 1);
      SumPrefix(session.periods, EnergyKwh, i);
    }
  }

  // ---------------------------------------------------------------------------------------
  // Prices that change within a period
  // ---------------------------------------------------------------------------------------

  lemma TierFound(tariff: Tariff, d: Dimension, r: Restrictions, ctx: Context)
    requires Tiered(tariff, d, r) && !ctx.isReservation
    ensures FindComponent(tariff, d, ctx).Some?
    ensures FindComponent(tariff, d, ctx).value.element == if Matches(r, ctx) then 0 else 1
    ensures FindInElement(tariff.elements[FindComponent(tariff, d, ctx).value.element].components, d)
            == Some(FindComponent(tariff, d, ctx).value.index)
  {
    hide Matches, HasComponent;
    ComponentIn(tariff.elements[0], d);
    ComponentIn(tariff.elements[1], d);
    hide FindInElement;
    assert Prices(tariff.elements, 1, d, ctx);
    assert Prices(tariff.elements, 0, d, ctx) <==> Matches(r, ctx);
  }

  /**
   * A period is noted as spanning a price change exactly when it has a last second and the tier
   * holds at one of its start and that second, and not at the other.
   */
  lemma SpansExactly(session: PricedSession, tariffs: seq<Tariff>, stretches: seq<Stretch>, i: nat, k: nat,
                     r: Restrictions)
    requires Planned(session, tariffs, |session.periods|) == Ok(stretches) && i < |stretches| && k < 4
    requires var c := PeriodQuantities(session.periods[i])[k];
             !c.reserving && c.quantity != 0.0 && Tiered(stretches[i].plan.tariff, c.dimension, r)
    ensures var (s, last) := (stretches[i], LastSecond(session, i));
            QuantityNote(s.plan, s.period, PeriodQuantities(s.period)[k])
            == if last.Some? && (HoldsAt(r, session, i) != HoldsAtEnd(r, session, i, last.value))
               then Some(Note(PeriodSpansPriceChange, Some(session.periods[i].start))) else None
  {
    hide Planned, Matches, HoldsAt, HoldsAtEnd, Tiered, FindComponent, FindInElement, ContextAtStart, ContextAtEnd,
         PeriodQuantities;
    PlannedAt(session, tariffs, stretches, i);
    var (plan, c) := (stretches[i].plan, PeriodQuantities(session.periods[i])[k]);
    MatchesAtStart(session, i, r, false);
    MatchesAtEnd(session, i, r, false);
    assert r.reservation.None? by { TierIsPlain(plan.tariff, c.dimension, r); }
    TierFound(plan.tariff, c.dimension, r, plan.context.Reserving(false));
    if plan.endContext.Some? {
      TierFound(plan.tariff, c.dimension, r, plan.endContext.value.Reserving(false));
    }
  }

  lemma TierIsPlain(tariff: Tariff, d: Dimension, r: Restrictions)
    requires Tiered(tariff, d, r)
    ensures r.reservation.None?
  {
  }

  // ---------------------------------------------------------------------------------------
  // A breakdown by tiers of energy
  // ---------------------------------------------------------------------------------------

  lemma OfOne(x: Option<Segment>, own: Dimension, d: Dimension)
    requires x.Some? ==> x.value.dimension == own
    ensures OfDimension(ToSeq(x), d) == if own == d then ToSeq(x) else []
  {
    if x.Some? {
      assert [x.value][..0] == [] && OfDimension([x.value][..0], d) == [];
    }
  }

  lemma OwnDimension(s: Stretch, k: nat)
    requires k < 4
    ensures var c := PeriodQuantities(s.period)[k];
            var x := QuantitySegment(s.plan, s.period, c);
            x.Some? ==> x.value.dimension == c.dimension
  {
    hide FindComponent;
  }

  /** The energy segment of a stretch, if something prices it. */
  function EnergySegment(s: Stretch): Option<Segment> {
    QuantitySegment(s.plan, s.period, PeriodQuantities(s.period)[0])
  }

  /** The energy of a stretch is its first quantity. */
  lemma EnergyOfStretch(s: Stretch)
    ensures OfDimension(s.Quantities(), Energy) == ToSeq(EnergySegment(s))
    ensures s.FlatFee().Some? ==> OfDimension([s.FlatFee().value], Energy) == []
  {
    FeeIsNoEnergy(s);
    hide OfDimension, ToSeq, FlatSegment;
    var q := PeriodQuantities(s.period);
    var of := (k: nat) requires k < 4 => ToSeq(QuantitySegment(s.plan, s.period, q[k]));
    assert q[0].dimension == Energy && q[1].dimension == q[2].dimension == Time && q[3].dimension == ParkingTime;
    QuantitiesOneByOne(s);
    KeptOf(s, 0);
    KeptOf(s, 1);
    KeptOf(s, 2);
    KeptOf(s, 3);
    hide QuantitySegment, PeriodQuantities, Stretch.Quantities;
    EnergyOnly(s, of(0), of(1), of(2), of(3));
  }

  lemma KeptOf(s: Stretch, k: nat)
    requires k < 4
    ensures var c := PeriodQuantities(s.period)[k];
            var x := ToSeq(QuantitySegment(s.plan, s.period, c));
            OfDimension(x, Energy) == if c.dimension == Energy then x else []
  {
    OwnDimension(s, k);
    var c := PeriodQuantities(s.period)[k];
    hide QuantitySegment, PeriodQuantities;
    OfOne(QuantitySegment(s.plan, s.period, c), c.dimension, Energy);
  }

  lemma FeeIsNoEnergy(s: Stretch)
    ensures s.FlatFee().Some? ==> OfDimension([s.FlatFee().value], Energy) == []
  {
    if s.FlatFee().Some? {
      assert s.FlatFee().value.dimension == Flat;
      hide FlatSegment;
      OfOne(s.FlatFee(), Flat, Energy);
    }
  }

  lemma EnergyOnly(s: Stretch, a: seq<Segment>, b: seq<Segment>, c: seq<Segment>, d: seq<Segment>)
    requires s.Quantities() == a + b + c + d && OfDimension(a, Energy) == a
    requires OfDimension(b, Energy) == OfDimension(c, Energy) == OfDimension(d, Energy) == []
    ensures OfDimension(s.Quantities(), Energy) == a
  {
    hide OfDimension, Stretch.Quantities;
    WholeOf(a, b, Energy);
    WholeOf(a + b, c, Energy);
    WholeOf(a + b + c, d, Energy);
    assert a + [] + [] + [] == a;
  }

  /** One energy segment a period, in order, when the energy of each is priced. */
  lemma {:induction false} EnergyOfSession(stretches: seq<Stretch>)
    requires forall s :: s in stretches ==> EnergySegment(s).Some?
    ensures |OfDimension(Collect(stretches), Energy)| == |stretches|
    ensures forall i :: 0 <= i < |stretches| ==>
              OfDimension(Collect(stretches), Energy)[i] == EnergySegment(stretches[i]).value
  {
    hide EnergySegment, OfDimension, Collect;
    if stretches == [] {
      NothingOf();
    } else {
      var n := |stretches| - 1;
      var (before, last) := (stretches[..n], stretches[n]);
      EnergyOfSession(before);
      EnergyStep(before, last);
      assert before + [last] == stretches && last in stretches;
    }
  }

  lemma EnergyStep(before: seq<Stretch>, last: Stretch)
    ensures OfDimension(Collect(before + [last]), Energy)
            == OfDimension(Collect(before), Energy) + ToSeq(EnergySegment(last))
  {
    hide EnergySegment, OfDimension, Stretch.Quantities, Stretch.FlatFee, Collect, ToSeq;
    EnergyOfStretch(last);
    CollectStep(before, last);
    WholeOf(Collect(before), last.Quantities(), Energy);
    if last.FlatFee().Some? {
      WholeOf(Collect(before) + last.Quantities(), [last.FlatFee().value], Energy);
    }
  }

  lemma WholeOf(a: seq<Segment>, b: seq<Segment>, d: Dimension)
    ensures OfDimension(a + b, d) == OfDimension(a, d) + OfDimension(b, d)
  {
    WithKeyConcat(a, b, DimensionKey, d);
  }

  lemma NothingOf()
    ensures OfDimension(Collect([]), Energy) == []
  {
  }

  /** The tier that prices period `i` where one goes up to `kwh`. */
  function TierAt(session: PricedSession, i: nat, kwh: real): nat
    requires i < |session.periods|
  {
    if SumBy(session.periods[..i], EnergyKwh) < kwh then 0 else 1
  }

  /**
   * The breakdown of a session whose periods all charge energy, under a tariff of energy up to
   * `kwh` and a fallback, lists one energy segment a period: by the first element while less than
   * that was charged before the period, and by the second from then on.
   */
  lemma TieredEnergy(policy: PricingPolicy, session: PricedSession, tariff: Tariff, kwh: real)
    requires Priced(policy, session, [tariff]).Ok? && session.periods != []
    requires Tiered(tariff, Energy, UNRESTRICTED.(maxKwh := Some(kwh)))
    requires forall p :: p in session.periods ==> p.energyKwh != 0.0
    ensures exists d :: d in Priced(policy, session, [tariff]).value.dimensions && d.dimension == Energy
                        && |d.segments| == |session.periods|
                        && forall i :: 0 <= i < |session.periods| ==>
                             d.segments[i].applied.element == TierAt(session, i, kwh)
  {
    hide CheckRange, SelectByPreference, Planned, Collect, CollectNotes, OrderNotes, DimensionsOf, NoteSplits, Tiered,
         PlanOf, TierAt;
    var stretches := Planned(session, [tariff], |session.periods|).value;
    EnergyTiers(session, tariff, stretches, kwh);
    var list := OfDimension(Collect(stretches), Energy);
    var d := EnergyDimension(policy, Collect(stretches));
    assert Priced(policy, session, [tariff]).value.dimensions == DimensionsOf(policy, Collect(stretches)) by {
      PricedDimensions(policy, session, [tariff]);
    }
  }

  lemma EnergyTiers(session: PricedSession, tariff: Tariff, stretches: seq<Stretch>, kwh: real)
    requires Planned(session, [tariff], |session.periods|) == Ok(stretches)
    requires Tiered(tariff, Energy, UNRESTRICTED.(maxKwh := Some(kwh)))
    requires forall p :: p in session.periods ==> p.energyKwh != 0.0
    ensures var list := OfDimension(Collect(stretches), Energy);
            |list| == |session.periods|
            && forall i :: 0 <= i < |list| ==> list[i].priced.applied.element == TierAt(session, i, kwh)
  {
    hide Planned, Collect, OfDimension, Tiered, QuantitySegment, HoldsAt, PeriodQuantities;
    var r := UNRESTRICTED.(maxKwh := Some(kwh));
    PlannedMeaning(session, [tariff], |session.periods|);
    forall i | 0 <= i < |stretches|
      ensures EnergySegment(stretches[i]).Some?
              && EnergySegment(stretches[i]).value.priced.applied.element == TierAt(session, i, kwh)
    {
      PlannedAt(session, [tariff], stretches, i);
      assert session.periods[i] in session.periods;
      PlanInTariffs(session, [tariff], i);
      EnergyIsFirst(session.periods[i]);
      TierOfPeriod(session, [tariff], stretches, i, 0, r);
      TierOfEnergy(session, i, kwh);
    }
    EnergyOfSession(stretches);
  }

  lemma EnergyIsFirst(p: PricedPeriod)
    ensures PeriodQuantities(p)[0] == Consumed(Energy, p.energyKwh, false)
  {
  }

  lemma EnergyDimension(policy: PricingPolicy, segments: seq<Segment>) returns (d: DimensionCost)
    requires OfDimension(segments, Energy) != []
    ensures d in DimensionsOf(policy, segments) && d.dimension == Energy
    ensures var list := OfDimension(segments, Energy);
            |d.segments| == |list|
            && forall i :: 0 <= i < |list| ==> d.segments[i].applied == list[i].priced.applied
  {
    SeenExactly(segments, DimensionKey, Energy);
    assert WithKey(segments, DimensionKey, Energy) == OfDimension(segments, Energy);
    hide BilledFor, OfDimension, PricingPolicy.RoundComponent, PricingPolicy.RoundQuantity, SplitTax;
    var seen := FirstSeen(segments, DimensionKey);
    var k :| 0 <= k < |seen| && seen[k] == Energy;
    d := DimensionOf(policy, Groups(segments)[k], QuantisedTime(segments));
    assert DimensionsOf(policy, segments)[k] == d;
  }
}
