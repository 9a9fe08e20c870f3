/**
 * Which Price Component prices a quantity at one moment of a session.
 * Models `find_component`, `restrictions_match` and `matches` of `src/tariffs/engine.rs`.
 */
module Lookup {
  import opened Wrappers
  import opened Tariffs
  import opened Input

  /** Everything a restriction can be evaluated against. */
  datatype Context = Context(
    localTime: nat,
    localDate: int,
    weekday: DayOfWeek,
    energySoFar: real,
    durationSoFar: int,
    currentLower: Option<real>,
    currentUpper: Option<real>,
    powerLower: Option<real>,
    powerUpper: Option<real>,
    isReservation: bool,
    reservationExpired: bool
  ) {
    /** This context seen as pricing reserved time, or consumed time. */
    function Reserving(reserving: bool): Context {
      this.(isReservation := reserving)
    }
  }

  /** The largest duration a restriction can state; larger ones are read as this. */
  const I64_MAX := 0x7fff_ffff_ffff_ffff

  function SaturatingI64(value: nat): int {
    if value > I64_MAX then I64_MAX else value
  }

  /** Whether the restriction is about the kind of time being priced. */
  predicate ReservationMatches(r: Option<ReservationRestriction>, ctx: Context) {
    match r
    case Some(Reservation) => ctx.isReservation && !ctx.reservationExpired
    case Some(ReservationExpires) => ctx.isReservation && ctx.reservationExpired
    case None => !ctx.isReservation
  }

  predicate TimeOfDayMatches(r: Restrictions, t: nat) {
    match (r.startTime, r.endTime)
    case (Some(s), Some(e)) => IsWithin(t, s, e)
    case (Some(s), None) => s <= t
    case (None, Some(e)) => t < e
    case (None, None) => true
  }

  /** A measured lower and upper figure against an inclusive minimum and an exclusive maximum. */
  predicate MeasuredMatches(min: Option<real>, max: Option<real>, lower: Option<real>, upper: Option<real>) {
    && (min.Some? ==> lower.Some? && min.value <= lower.value)
    && (max.Some? ==> upper.Some? && upper.value < max.value)
  }

  /** Whether every restriction that is set holds. */
  predicate Matches(r: Restrictions, ctx: Context) {
    && ReservationMatches(r.reservation, ctx)
    && TimeOfDayMatches(r, ctx.localTime)
    && (r.startDate.Some? ==> r.startDate.value <= ctx.localDate)
    && (r.endDate.Some? ==> ctx.localDate < r.endDate.value)
    && (r.minKwh.Some? ==> r.minKwh.value <= ctx.energySoFar)
    && (r.maxKwh.Some? ==> ctx.energySoFar < r.maxKwh.value)
    && MeasuredMatches(r.minCurrent, r.maxCurrent, ctx.currentLower, ctx.currentUpper)
    && MeasuredMatches(r.minPower, r.maxPower, ctx.powerLower, ctx.powerUpper)
    && (r.minDuration.Some? ==> SaturatingI64(r.minDuration.value) <= ctx.durationSoFar)
    && (r.maxDuration.Some? ==> ctx.durationSoFar < SaturatingI64(r.maxDuration.value))
    && (r.dayOfWeek != [] ==> ctx.weekday in r.dayOfWeek)
  }

  /** An element without restrictions is the fallback for a session, never for a reservation. */
  predicate RestrictionsMatch(element: TariffElement, ctx: Context) {
    if element.restrictions.None? then !ctx.isReservation else Matches(element.restrictions.value, ctx)
  }

  /** A Price Component and where it sits in its tariff. */
  datatype Found = Found(component: PriceComponent, element: nat, index: nat)

  /** The first component for `dimension` from index `c` on. */
  function FindInElement(components: seq<PriceComponent>, dimension: Dimension, c: nat := 0): (r: Option<nat>)
    requires c <= |components|
    ensures r.None? <==> forall k :: c <= k < |components| ==> components[k].dimension != dimension
    ensures r.Some? ==> c <= r.value < |components| && components[r.value].dimension == dimension
    ensures r.Some? ==> forall k :: c <= k < r.value ==> components[k].dimension != dimension
    decreases |components| - c
  {
    if c == |components| then None
    else if components[c].dimension == dimension then Some(c)
    else FindInElement(components, dimension, c + 1)
  }

  /** Whether element `e` is active and prices `dimension`. */
  predicate Prices(elements: seq<TariffElement>, e: nat, dimension: Dimension, ctx: Context)
    requires e < |elements|
  {
    RestrictionsMatch(elements[e], ctx) && FindInElement(elements[e].components, dimension).Some?
  }

  /** The first active element from `e` on that prices `dimension`, and its first component for it. */
  function FindFrom(elements: seq<TariffElement>, e: nat, dimension: Dimension, ctx: Context): (r: Option<Found>)
    requires e <= |elements|
    ensures r.None? <==> forall k :: e <= k < |elements| ==> !Prices(elements, k, dimension, ctx)
    ensures r.Some? ==> e <= r.value.element < |elements| && Prices(elements, r.value.element, dimension, ctx)
    ensures r.Some? ==> forall k :: e <= k < r.value.element ==> !Prices(elements, k, dimension, ctx)
    ensures r.Some? ==> FindInElement(elements[r.value.element].components, dimension) == Some(r.value.index)
    ensures r.Some? ==> r.value.component == elements[r.value.element].components[r.value.index]
    decreases |elements| - e
  {
    if e == |elements| then None
    else if Prices(elements, e, dimension, ctx) then
      var c := FindInElement(elements[e].components, dimension).value;
      Some(Found(elements[e].components[c], e, c))
    else FindFrom(elements, e + 1, dimension, ctx)
  }

  /** The component of `tariff` that prices `dimension` at this moment. */
  function FindComponent(tariff: Tariff, dimension: Dimension, ctx: Context): Option<Found> {
    FindFrom(tariff.elements, 0, dimension, ctx)
  }

  /** The context at the start of period `index`, when the time zone can be resolved there. */
  function ContextAtStart(session: PricedSession, index: nat): Option<Context>
    requires index < |session.periods|
  {
    var period := session.periods[index];
    match session.zone(period.start)
    case None => None
    case Some(local) =>
      Some(Context(local.time, local.date, local.weekday, session.EnergyBefore(index),
                   session.DurationBefore(index),
                   period.CurrentForLowerBound(), period.CurrentForUpperBound(),
                   period.PowerForLowerBound(), period.PowerForUpperBound(),
                   false, session.reservationExpired))
  }

  /**
   * The context one second before period `index` ends. The outer option is `None` when the time
   * zone cannot be resolved there, the inner one when the period has no end or no length.
   */
  function ContextAtEnd(session: PricedSession, index: nat): Option<Option<Context>>
    requires index < |session.periods|
  {
    var period := session.periods[index];
    match session.PeriodEnd(index)
    case None => Some(None)
    case Some(end) =>
      var last := (UnixTimestamp(end) - 1) * 1000000000;
      if last <= period.start then Some(None)
      else
        match session.zone(last)
        case None => None
        case Some(local) =>
          Some(Some(Context(local.time, local.date, local.weekday,
                            session.EnergyBefore(index) + period.energyKwh,
                            UnixTimestamp(last) - UnixTimestamp(session.start),
                            period.CurrentForLowerBound(), period.CurrentForUpperBound(),
                            period.PowerForLowerBound(), period.PowerForUpperBound(),
                            false, session.reservationExpired)))
  }

  /** The reservation restriction an element carries. */
  function ReservationOf(element: TariffElement): Option<ReservationRestriction> {
    if element.restrictions.None? then None else element.restrictions.value.reservation
  }

  /** The restriction an element must carry to price reserved time, and none to price other time. */
  predicate ElementFits(element: TariffElement, expired: bool, reserved: bool) {
    ReservationOf(element)
    == if !reserved then None else if expired then Some(ReservationExpires) else Some(Reservation)
  }

  /**
   * What a found component prices is reserved time exactly when its element carries the
   * reservation restriction that fits whether the session's reservation expired; any other time
   * is priced only by an element that carries none.
   */
  lemma ReservedExactlyWhenRestricted(tariff: Tariff, dimension: Dimension, ctx: Context)
    requires FindComponent(tariff, dimension, ctx).Some?
    ensures ElementFits(tariff.elements[FindComponent(tariff, dimension, ctx).value.element],
                        ctx.reservationExpired, ctx.isReservation)
  {
    var e := FindComponent(tariff, dimension, ctx).value.element;
    assert RestrictionsMatch(tariff.elements[e], ctx);
  }

  /** A window of the day and the window from its end to its start share no minute and miss none. */
  lemma DayWindowsTile(t: nat, start: nat, end: nat)
    requires start != end
    ensures IsWithin(t, start, end) <==> !IsWithin(t, end, start)
  {
  }

  /** Exactly one of two. */
  predicate OneOf(a: bool, b: bool) {
    a != b
  }

  /**
   * Bounds are half-open: a restriction cut at an amount of energy, a duration, a date or a time of
   * day holds at each moment it held before in exactly one of its two parts, and never besides.
   */
  lemma BoundsTile(r: Restrictions, ctx: Context, kwh: real, seconds: nat, day: int, minute: nat)
    ensures r.minKwh.None? && r.maxKwh.None? ==>
              var (below, above) := (Matches(r.(maxKwh := Some(kwh)), ctx), Matches(r.(minKwh := Some(kwh)), ctx));
              !(below && above) && (Matches(r, ctx) <==> OneOf(below, above))
    ensures r.minDuration.None? && r.maxDuration.None? ==>
              var (below, above) := (Matches(r.(maxDuration := Some(seconds)), ctx),
                                     Matches(r.(minDuration := Some(seconds)), ctx));
              !(below && above) && (Matches(r, ctx) <==> OneOf(below, above))
    ensures r.startDate.None? && r.endDate.None? ==>
              var (below, above) := (Matches(r.(endDate := Some(day)), ctx), Matches(r.(startDate := Some(day)), ctx));
              !(below && above) && (Matches(r, ctx) <==> OneOf(below, above))
    ensures r.startTime.None? && r.endTime.None? ==>
              var (below, above) := (Matches(r.(endTime := Some(minute)), ctx),
                  Matches(r.(startTime := Some(minute)), ctx));
              !(below && above) && (Matches(r, ctx) <==> OneOf(below, above))
  {
  }
}
