/**
 * Which quantities of a session are priced, by which component: the first half of
 * `PricingEngine::price` in `src/tariffs/engine.rs`.
 */
module Segments {
  import opened Wrappers
  import opened Tariffs
  import opened Input
  import opened Lookup
  import opened Breakdown
  import opened Selection

  /** One stretch of one dimension, before it is quantised and costed. */
  datatype Segment = Segment(dimension: Dimension, stepSize: nat, priced: PricedSegment)

  /** One quantity a period consumed, and whether it is reserved time. */
  datatype Consumed = Consumed(dimension: Dimension, quantity: real, reserving: bool)

  /** The quantities of a period, in the order they are looked up. */
  function PeriodQuantities(p: PricedPeriod): (r: seq<Consumed>)
    ensures |r| == 4
  {
    [Consumed(Energy, p.energyKwh, false),
     Consumed(Time, p.chargingHours, false),
     Consumed(Time, p.reservationHours, true),
     Consumed(ParkingTime, p.parkingHours, false)]
  }

  /** The tariff and the two contexts one period is priced in. */
  datatype Plan = Plan(tariff: Tariff, context: Context, endContext: Option<Context>)

  function PlanOf(session: PricedSession, tariffs: seq<Tariff>, i: nat): Result<Plan, PricingError>
    requires i < |session.periods|
  {
    var tariff :- SelectTariff(session, session.periods[i], tariffs);
    match (ContextAtStart(session, i), ContextAtEnd(session, i))
    case (Some(start), Some(end)) => Ok(Plan(tariff, start, end))
    case (_, _) => Err(TimeZoneError)
  }

  function SegmentFor(tariff: Tariff, found: Found, start: DateTime, dimension: Dimension, quantity: real,
                      stepSize: nat, reserving: bool): Segment
  {
    Segment(dimension, stepSize,
            PricedSegment(start, quantity, found.component.price, found.component.vat, 0.0, 0.0,
                          BasisOf(tariff), Applied(tariff.id, found.element, found.index, reserving)))
  }

  /** The segment one consumed quantity becomes, if it is not zero and something prices it. */
  function QuantitySegment(plan: Plan, period: PricedPeriod, c: Consumed): Option<Segment> {
    if c.quantity == 0.0 then None
    else
      match FindComponent(plan.tariff, c.dimension, plan.context.Reserving(c.reserving))
      case None => None
      case Some(f) =>
        Some(SegmentFor(plan.tariff, f, period.start, c.dimension, c.quantity, f.component.stepSize, c.reserving))
  }

  /** The note one consumed quantity earns: nothing prices it, or its price changes while it lasts. */
  function QuantityNote(plan: Plan, period: PricedPeriod, c: Consumed): Option<Note> {
    if c.quantity == 0.0 then None
    else
      match FindComponent(plan.tariff, c.dimension, plan.context.Reserving(c.reserving))
      case None => Some(Note(NoPriceComponent, Some(period.start)))
      case Some(f) =>
        match plan.endContext
        case None => None
        case Some(end) =>
          var later := FindComponent(plan.tariff, c.dimension, end.Reserving(c.reserving));
          if later.Some? && (later.value.element, later.value.index) != (f.element, f.index)
          then Some(Note(PeriodSpansPriceChange, Some(period.start)))
          else None
  }

  function ToSeq<T>(o: Option<T>): seq<T> {
    match o
    case None => []
    case Some(x) => [x]
  }

  /** The flat fee a period would charge: the ordinary context first, the reserved one only for reserved time. */
  function FlatSegment(plan: Plan, period: PricedPeriod): Option<Segment> {
    var charging := FindComponent(plan.tariff, Flat, plan.context.Reserving(false));
    var reserved := FindComponent(plan.tariff, Flat, plan.context.Reserving(true));
    if charging.Some? then
      Some(SegmentFor(plan.tariff, charging.value, period.start, Flat, 1.0, 1, false))
    else if period.reservationHours != 0.0 && reserved.Some? then
      Some(SegmentFor(plan.tariff, reserved.value, period.start, Flat, 1.0, 1, true))
    else None
  }

  /** The segments of the listed quantities. */
  function QuantitySegments(plan: Plan, period: PricedPeriod, consumed: seq<Consumed>): seq<Segment> {
    if consumed == [] then []
    else
      var n := |consumed| - 1;
      QuantitySegments(plan, period, consumed[..n]) + ToSeq(QuantitySegment(plan, period, consumed[n]))
  }

  function QuantityNotes(plan: Plan, period: PricedPeriod, consumed: seq<Consumed>): seq<Note> {
    if consumed == [] then []
    else
      var n := |consumed| - 1;
      QuantityNotes(plan, period, consumed[..n]) + ToSeq(QuantityNote(plan, period, consumed[n]))
  }

  predicate HasFlat(segments: seq<Segment>) {
    exists k :: 0 <= k < |segments| && segments[k].dimension == Flat
  }

  /** A charging period with the tariff and contexts it is priced in. */
  datatype Stretch = Stretch(plan: Plan, period: PricedPeriod) {
    function Quantities(): seq<Segment> {
      QuantitySegments(plan, period, PeriodQuantities(period))
    }

    function Notes(): seq<Note> {
      QuantityNotes(plan, period, PeriodQuantities(period))
    }

    function FlatFee(): Option<Segment> {
      FlatSegment(plan, period)
    }
  }

  /** The segments of a period, one quantity after the other. */
  lemma QuantitiesOneByOne(s: Stretch)
    ensures var q := PeriodQuantities(s.period);
            s.Quantities()
            == ToSeq(QuantitySegment(s.plan, s.period, q[0])) + ToSeq(QuantitySegment(s.plan, s.period, q[1]))
               + ToSeq(QuantitySegment(s.plan, s.period, q[2])) + ToSeq(QuantitySegment(s.plan, s.period, q[3]))
  {
    hide QuantitySegment, ToSeq, PeriodQuantities;
    var q := PeriodQuantities(s.period);
    var of := (k: nat) requires k < 4 => ToSeq(QuantitySegment(s.plan, s.period, q[k]));
    assert q[..4] == q && q[..3][..2] == q[..2] && q[..2][..1] == q[..1] && q[..1][..0] == [];
    assert [] + of(0) == of(0) && QuantitySegments(s.plan, s.period, q[..1]) == of(0);
    assert QuantitySegments(s.plan, s.period, q[..2]) == of(0) + of(1);
    assert QuantitySegments(s.plan, s.period, q[..3]) == of(0) + of(1) + of(2);
  }

  /** The first `n` periods planned, or the first error among them. */
  function Planned(session: PricedSession, tariffs: seq<Tariff>, n: nat): (r: Result<seq<Stretch>, PricingError>)
    requires n <= |session.periods|
    ensures r.Ok? ==> |r.value| == n
  {
    if n == 0 then Ok([])
    else
      var before :- Planned(session, tariffs, n - 1);
      var plan :- PlanOf(session, tariffs, n - 1);
      Ok(before + [Stretch(plan, session.periods[n - 1])])
  }

  /** Period `i` is the first of the first `n` that cannot be planned, and `e` says why. */
  ghost predicate FirstFailure(session: PricedSession, tariffs: seq<Tariff>, i: nat, n: nat, e: PricingError) {
    && i < n <= |session.periods|
    && PlanOf(session, tariffs, i) == Err(e)
    && forall j :: 0 <= j < i ==> PlanOf(session, tariffs, j).Ok?
  }

  function OrderNotes(session: PricedSession): seq<Note> {
    var at := session.FirstOutOfOrder();
    if at.Some? then [Note(PeriodsOutOfOrder, at)] else []
  }

  /** The segments of a planned session: a flat fee is charged only while none was. */
  function Collect(stretches: seq<Stretch>): seq<Segment> {
    if stretches == [] then []
    else
      var n := |stretches| - 1;
      var before := Collect(stretches[..n]);
      before + stretches[n].Quantities()
      + (if HasFlat(before) then [] else ToSeq(stretches[n].FlatFee()))
  }

  /** The notes of a planned session. */
  function CollectNotes(stretches: seq<Stretch>): seq<Note> {
    if stretches == [] then []
    else CollectNotes(stretches[..|stretches| - 1]) + stretches[|stretches| - 1].Notes()
  }

  /** Looks up the quantities of one period, pushing their segments and notes. */
  method PriceQuantities(s: Stretch, segments0: seq<Segment>, notes0: seq<Note>)
    returns (segments: seq<Segment>, notes: seq<Note>)
    ensures segments == segments0 + s.Quantities()
    ensures notes == notes0 + s.Notes()
  {
    hide QuantitySegment, QuantityNote;
    segments, notes := segments0, notes0;
    var consumed := PeriodQuantities(s.period);
    for k := 0 to |consumed|
      invariant segments == segments0 + QuantitySegments(s.plan, s.period, consumed[..k])
      invariant notes == notes0 + QuantityNotes(s.plan, s.period, consumed[..k])
    {
      assert consumed[..k + 1][..k] == consumed[..k];
      var segment := QuantitySegment(s.plan, s.period, consumed[k]);
      if segment.Some? {
        segments := segments + [segment.value];
      }
      var note := QuantityNote(s.plan, s.period, consumed[k]);
      if note.Some? {
        notes := notes + [note.value];
      }
    }
    assert consumed[..|consumed|] == consumed;
  }

  /** Walks the periods, pushing segments and notes, and charging the flat fee once. */
  method CollectSegments(session: PricedSession, tariffs: seq<Tariff>)
    returns (error: Option<PricingError>, segments: seq<Segment>, notes: seq<Note>, ghost stretches: seq<Stretch>)
    ensures error.Some? ==> Planned(session, tariffs, |session.periods|) == Err(error.value)
    ensures error.None? ==> Planned(session, tariffs, |session.periods|) == Ok(stretches)
    ensures error.None? ==> segments == Collect(stretches)
    ensures error.None? ==> notes == OrderNotes(session) + CollectNotes(stretches)
  {
    hide *;
    Start(session, tariffs);
    error, segments, notes, stretches := None, [], OrderNotes(session), [];
    var flatCharged := false;
    for i := 0 to |session.periods|
      invariant Planned(session, tariffs, i) == Ok(stretches)
      invariant segments == Collect(stretches)
      invariant notes == OrderNotes(session) + CollectNotes(stretches)
      invariant flatCharged == HasFlat(segments)
    {
      var plan := PlanOf(session, tariffs, i);
      if plan.Err? {
        PlannedFailure(session, tariffs, i);
        FailureSticks(session, tariffs, i + 1, |session.periods|);
        error := Some(plan.error);
        return;
      }
      var s := Stretch(plan.value, session.periods[i]);
      segments, notes := PriceQuantities(s, segments, notes);
      if !flatCharged {
        var flat := s.FlatFee();
        if flat.Some? {
          segments := segments + [flat.value];
          flatCharged := true;
        }
      }
      CollectStep(stretches, s);
      PlannedStep(session, tariffs, i, stretches);
      stretches := stretches + [s];
    }
  }

  lemma Start(session: PricedSession, tariffs: seq<Tariff>)
    ensures Planned(session, tariffs, 0) == Ok([])
    ensures Collect([]) == [] && CollectNotes([]) == [] && !HasFlat([])
  {
  }

  lemma CollectStep(stretches: seq<Stretch>, s: Stretch)
    ensures CollectNotes(stretches + [s]) == CollectNotes(stretches) + s.Notes()
    ensures var (before, quantities, flat) := (Collect(stretches), s.Quantities(), s.FlatFee());
            var after := Collect(stretches + [s]);
            if !HasFlat(before) && flat.Some?
            then after == before + quantities + [flat.value] && HasFlat(after)
            else after == before + quantities && (HasFlat(after) <==> HasFlat(before))
  {
    hide FlatSegment, QuantitySegments;
    var (before, quantities) := (Collect(stretches), s.Quantities());
    assert (stretches + [s])[..|stretches|] == stretches;
    PeriodIsNotFlat(s);
    FlatOfConcat(before, quantities);
    if s.FlatFee().Some? {
      FlatFeeIsFlat(s);
      FlatOfConcat(before + quantities, [s.FlatFee().value]);
    }
  }

  lemma PlannedStep(session: PricedSession, tariffs: seq<Tariff>, i: nat, before: seq<Stretch>)
    requires i < |session.periods| && Planned(session, tariffs, i) == Ok(before)
    requires PlanOf(session, tariffs, i).Ok?
    ensures Planned(session, tariffs, i + 1)
            == Ok(before + [Stretch(PlanOf(session, tariffs, i).value, session.periods[i])])
  {
    hide PlanOf;
  }

  lemma PlannedFailure(session: PricedSession, tariffs: seq<Tariff>, i: nat)
    requires i < |session.periods| && Planned(session, tariffs, i).Ok? && PlanOf(session, tariffs, i).Err?
    ensures Planned(session, tariffs, i + 1) == Err(PlanOf(session, tariffs, i).error)
  {
    hide PlanOf;
  }

  lemma FlatFeeIsFlat(s: Stretch)
    requires s.FlatFee().Some?
    ensures HasFlat([s.FlatFee().value])
  {
    assert [s.FlatFee().value][0].dimension == Flat;
  }

  /** Planning succeeds exactly when every period can be planned, and else reports the first that cannot. */
  lemma {:induction false} PlannedMeaning(session: PricedSession, tariffs: seq<Tariff>, n: nat)
    requires n <= |session.periods|
    ensures var r := Planned(session, tariffs, n);
            if r.Ok? then
              && |r.value| == n
              && forall i :: 0 <= i < n ==> PlanOf(session, tariffs, i) == Ok(r.value[i].plan)
                                            && r.value[i].period == session.periods[i]
            else exists i :: FirstFailure(session, tariffs, i, n, r.error)
  {
    hide PlanOf;
    if n == 0 {
    } else {
      PlannedMeaning(session, tariffs, n - 1);
      var before := Planned(session, tariffs, n - 1);
      if before.Err? {
        var i :| FirstFailure(session, tariffs, i, n - 1, before.error);
        assert FirstFailure(session, tariffs, i, n, before.error);
      } else if PlanOf(session, tariffs, n - 1).Err? {
        assert FirstFailure(session, tariffs, n - 1, n, PlanOf(session, tariffs, n - 1).error);
      }
    }
  }

  /** An error at one period is the error of the whole session. */
  lemma {:induction false} FailureSticks(session: PricedSession, tariffs: seq<Tariff>, m: nat, n: nat)
    requires m <= n <= |session.periods|
    requires Planned(session, tariffs, m).Err?
    ensures Planned(session, tariffs, n) == Err(Planned(session, tariffs, m).error)
  {
    hide PlanOf;
    if m == n {
    } else {
      FailureSticks(session, tariffs, m, n - 1);
    }
  }

  lemma {:induction false} QuantitiesAreNotFlat(plan: Plan, period: PricedPeriod, consumed: seq<Consumed>)
    requires forall c :: c in consumed ==> c.dimension != Flat
    ensures !HasFlat(QuantitySegments(plan, period, consumed))
  {
    if consumed == [] {
    } else {
      var n := |consumed| - 1;
      QuantitiesAreNotFlat(plan, period, consumed[..n]);
      FlatOfConcat(QuantitySegments(plan, period, consumed[..n]), ToSeq(QuantitySegment(plan, period, consumed[n])));
    }
  }

  lemma PeriodIsNotFlat(s: Stretch)
    ensures !HasFlat(s.Quantities())
  {
    QuantitiesAreNotFlat(s.plan, s.period, PeriodQuantities(s.period));
  }

  lemma FlatOfConcat(a: seq<Segment>, b: seq<Segment>)
    ensures HasFlat(a + b) <==> HasFlat(a) || HasFlat(b)
  {
    if HasFlat(b) {
      var k :| 0 <= k < |b| && b[k].dimension == Flat;
      assert (a + b)[|a| + k].dimension == Flat;
    }
    if HasFlat(a) {
      var k :| 0 <= k < |a| && a[k].dimension == Flat;
      assert (a + b)[k].dimension == Flat;
    }
  }

  // ---------------------------------------------------------------------------------------
  // What every run keeps
  // ---------------------------------------------------------------------------------------

  /** How often `dimension` was priced. */
  function CountOf(segments: seq<Segment>, dimension: Dimension): nat {
    if segments == [] then 0
    else CountOf(segments[..|segments| - 1], dimension)
         + if segments[|segments| - 1].dimension == dimension then 1 else 0
  }

  lemma CountOfOne(s: Segment, dimension: Dimension)
    ensures CountOf([s], dimension) == if s.dimension == dimension then 1 else 0
  {
    assert [s][..0] == [];
  }

  lemma {:induction false} CountOfConcat(a: seq<Segment>, b: seq<Segment>, dimension: Dimension)
    ensures CountOf(a + b, dimension) == CountOf(a, dimension) + CountOf(b, dimension)
  {
    if b == [] {
      assert a + b == a;
    } else {
      assert (a + b)[..|a + b| - 1] == a + b[..|b| - 1];
      CountOfConcat(a, b[..|b| - 1], dimension);
    }
  }

  lemma {:induction false} CountOfFlat(segments: seq<Segment>)
    ensures CountOf(segments, Flat) > 0 <==> HasFlat(segments)
  {
    if segments == [] {
    } else {
      var n := |segments| - 1;
      CountOfFlat(segments[..n]);
      assert segments == segments[..n] + [segments[n]];
      FlatOfConcat(segments[..n], [segments[n]]);
      assert HasFlat([segments[n]]) <==> [segments[n]][0].dimension == Flat;
    }
  }

  /** Stretch `i` is the first one that offers a flat fee. */
  predicate FirstFlat(stretches: seq<Stretch>, i: nat) {
    && i < |stretches|
    && stretches[i].FlatFee().Some?
    && forall j :: 0 <= j < i ==> stretches[j].FlatFee().None?
  }

  /** The flat fee is charged exactly once, by the first period that offers one. */
  lemma {:induction false} FlatChargedOnce(stretches: seq<Stretch>, i: nat)
    requires FirstFlat(stretches, i)
    ensures CountOf(Collect(stretches), Flat) == 1
    ensures stretches[i].FlatFee().value in Collect(stretches)
  {
    hide FlatSegment, QuantitySegments;
    var n := |stretches| - 1;
    var before := Collect(stretches[..n]);
    var quantities := stretches[n].Quantities();
    CountOfFlat(before);
    PeriodIsNotFlat(stretches[n]);
    CountOfFlat(quantities);
    CountOfConcat(before, quantities, Flat);
    if i == n {
      FlatNeverCharged(stretches[..n]);
      var fee := stretches[n].FlatFee().value;
      FlatFeeIsFlat(stretches[n]);
      CountOfOne(fee, Flat);
      CountOfConcat(before + quantities, [fee], Flat);
    } else {
      FlatChargedOnce(stretches[..n], i);
      assert Collect(stretches) == before + quantities;
    }
  }

  /** No flat fee is charged when no period offers one. */
  lemma {:induction false} FlatNeverCharged(stretches: seq<Stretch>)
    requires forall s :: s in stretches ==> s.FlatFee().None?
    ensures CountOf(Collect(stretches), Flat) == 0
  {
    hide FlatSegment, QuantitySegments;
    if stretches == [] {
    } else {
      var n := |stretches| - 1;
      FlatNeverCharged(stretches[..n]);
      PeriodIsNotFlat(stretches[n]);
      CountOfFlat(stretches[n].Quantities());
      CountOfConcat(Collect(stretches[..n]), stretches[n].Quantities(), Flat);
      assert Collect(stretches) == Collect(stretches[..n]) + stretches[n].Quantities();
    }
  }

  /** `s` is what `c` of `element` makes of one quantity of the stretch. */
  predicate ComesFrom(stretch: Stretch, element: TariffElement, c: PriceComponent, s: Segment) {
    && c.dimension == s.dimension
    && c.price == s.priced.price
    && c.vat == s.priced.vat
    && BasisOf(stretch.plan.tariff) == s.priced.basis
    && stretch.period.start == s.priced.start
    && s.priced.quantity != 0.0
    && ElementFits(element, stretch.plan.context.reservationExpired, s.priced.applied.reservation)
    && (if s.dimension.Flat? then s.priced.quantity == 1.0
        else c.stepSize == s.stepSize
             && Consumed(s.dimension, s.priced.quantity,
                 s.priced.applied.reservation) in PeriodQuantities(stretch.period))
  }

  /** `s` names, in its audit trail, the component of the stretch's tariff that priced it. */
  predicate PricedBy(stretch: Stretch, s: Segment) {
    var (elements, at) := (stretch.plan.tariff.elements, s.priced.applied);
    && at.tariffId == stretch.plan.tariff.id
    && at.element < |elements|
    && at.index < |elements[at.element].components|
    && ComesFrom(stretch, elements[at.element], elements[at.element].components[at.index], s)
  }

  /**
   * In every run each segment names the component that priced it: its price, rate, basis and
   * quantity are that component's and that period's, and it is marked reserved exactly when the
   * element carries the reservation restriction matching the session's expiry state.
   */
  lemma {:induction false} AuditTrail(stretches: seq<Stretch>, s: Segment)
    requires s in Collect(stretches)
    ensures exists i :: 0 <= i < |stretches| && PricedBy(stretches[i], s)
  {
    hide FlatSegment, QuantitySegments, PricedBy;
    var n := |stretches| - 1;
    if s in Collect(stretches[..n]) {
      AuditTrail(stretches[..n], s);
      var i :| 0 <= i < n && PricedBy(stretches[..n][i], s);
      assert PricedBy(stretches[i], s);
    } else if s in stretches[n].Quantities() {
      QuantitiesPricedBy(stretches[n], PeriodQuantities(stretches[n].period), s);
    } else {
      FlatPricedBy(stretches[n]);
    }
  }

  lemma FlatPricedBy(stretch: Stretch)
    requires stretch.FlatFee().Some?
    ensures PricedBy(stretch, stretch.FlatFee().value)
  {
    var s := stretch.FlatFee().value;
    ReservedExactlyWhenRestricted(stretch.plan.tariff, Flat,
        stretch.plan.context.Reserving(s.priced.applied.reservation));
  }

  lemma QuantityPricedBy(stretch: Stretch, c: Consumed)
    requires c in PeriodQuantities(stretch.period)
    requires QuantitySegment(stretch.plan, stretch.period, c).Some?
    ensures PricedBy(stretch, QuantitySegment(stretch.plan, stretch.period, c).value)
  {
    ReservedExactlyWhenRestricted(stretch.plan.tariff, c.dimension, stretch.plan.context.Reserving(c.reserving));
  }

  lemma {:induction false} QuantitiesPricedBy(stretch: Stretch, consumed: seq<Consumed>, s: Segment)
    requires forall c :: c in consumed ==> c in PeriodQuantities(stretch.period)
    requires s in QuantitySegments(stretch.plan, stretch.period, consumed)
    ensures PricedBy(stretch, s)
  {
    hide QuantitySegment, PeriodQuantities, PricedBy;
    var c := consumed[|consumed| - 1];
    if QuantitySegment(stretch.plan, stretch.period, c) == Some(s) {
      QuantityPricedBy(stretch, c);
    } else {
      QuantitiesPricedBy(stretch, consumed[..|consumed| - 1], s);
    }
  }
}
