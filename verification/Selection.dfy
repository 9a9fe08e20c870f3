/** Which tariff applies, and what input is refused. Models the `select_*` functions and
    `check_range` of `src/tariffs/engine.rs`. */
module Selection {
  import opened Wrappers
  import opened Decimals
  import opened Tariffs
  import opened Input
  import opened Breakdown

  datatype PricingError =
    | NoTariff
    | UnknownTariff(id: string)
    | NoActiveTariff(at: DateTime)
    | TimeZoneError
    | OutOfRange

  function BasisOf(tariff: Tariff): TaxBasis {
    match tariff.taxIncluded
    case No => Excluded
    case Yes => Included
    case NotApplicable => NoTax
  }

  /** The first element from index `i` on that satisfies `p`. */
  function FirstWhere<T>(s: seq<T>, p: T -> bool, i: nat := 0): (r: Option<nat>)
    requires i <= |s|
    ensures r.None? <==> forall k :: i <= k < |s| ==> !p(s[k])
    ensures r.Some? ==> i <= r.value < |s| && p(s[r.value]) && forall k :: i <= k < r.value ==> !p(s[k])
    decreases |s| - i
  {
    if i == |s| then None else if p(s[i]) then Some(i) else FirstWhere(s, p, i + 1)
  }

  /** The type of tariff the session asks for. */
  function Wanted(session: PricedSession): Option<TariffType> {
    if session.adHocPayment then Some(AdHocPayment)
    else
      match session.profile
      case None => None
      case Some(Cheap) => Some(ProfileCheap)
      case Some(Fast) => Some(ProfileFast)
      case Some(Green) => Some(ProfileGreen)
      case Some(RegularProfile) => Some(Regular)
  }

  /** Among the active tariffs: the first of the wanted type, else the first untyped, else the first. */
  function SelectByPreference(wanted: Option<TariffType>, at: DateTime, tariffs: seq<Tariff>):
    (r: Result<Tariff, PricingError>)
    ensures r.Err? <==> forall k :: 0 <= k < |tariffs| ==> !tariffs[k].IsActiveAt(at)
    ensures r.Ok? ==> r.value in tariffs && r.value.IsActiveAt(at)
    ensures r.Ok? && wanted.Some? && r.value.tariffType != wanted ==>
              forall t :: t in tariffs && t.IsActiveAt(at) ==> t.tariffType != wanted
    ensures r.Ok? && r.value.tariffType.Some? && r.value.tariffType != wanted ==>
              forall t :: t in tariffs && t.IsActiveAt(at) ==> t.tariffType.Some?
  {
    var preferred := FirstWhere(tariffs, (t: Tariff) => t.IsActiveAt(at) && wanted.Some? && t.tariffType == wanted);
    var untyped := FirstWhere(tariffs, (t: Tariff) => t.IsActiveAt(at) && t.tariffType.None?);
    var active := FirstWhere(tariffs, (t: Tariff) => t.IsActiveAt(at));
    if active.None? then Err(NoActiveTariff(at))
    else if preferred.Some? then Ok(tariffs[preferred.value])
    else if untyped.Some? then Ok(tariffs[untyped.value])
    else Ok(tariffs[active.value])
  }

  /** The tariff that applies to one charging period. */
  function SelectTariff(session: PricedSession, period: PricedPeriod, tariffs: seq<Tariff>):
    (r: Result<Tariff, PricingError>)
    ensures r.Ok? ==> r.value in tariffs
    ensures period.tariffId.Some? && r.Ok? ==> EqIgnoreCase(r.value.id, period.tariffId.value)
  {
    match period.tariffId
    case None => SelectByPreference(Wanted(session), period.start, tariffs)
    case Some(id) =>
      match FirstWhere(tariffs, (t: Tariff) => EqIgnoreCase(t.id, id))
      case None => Err(UnknownTariff(id))
      case Some(k) => Ok(tariffs[k])
  }

  /** The largest magnitude the engine prices. */
  const MAX_MAGNITUDE := 1000000000000.0

  predicate Priceable(x: real) {
    Abs(x) <= MAX_MAGNITUDE
  }

  predicate PriceableLimit(limit: Option<PriceLimit>) {
    limit.Some? ==>
      Priceable(limit.value.beforeTaxes)
      && (limit.value.afterTaxes.Some? ==> Priceable(limit.value.afterTaxes.value))
  }

  predicate PriceableComponent(c: PriceComponent) {
    Priceable(c.price) && (c.vat.Some? ==> Priceable(c.vat.value))
  }

  predicate PriceablePeriod(p: PricedPeriod) {
    Priceable(p.energyKwh) && Priceable(p.chargingHours) && Priceable(p.parkingHours) && Priceable(p.reservationHours)
  }

  predicate PriceableTariff(t: Tariff) {
    && (forall e :: e in t.elements ==> forall c :: c in e.components ==> PriceableComponent(c))
    && PriceableLimit(t.minPrice)
    && PriceableLimit(t.maxPrice)
  }

  /** Whether every peer-supplied figure is small enough to price. */
  predicate CheckRange(session: PricedSession, tariffs: seq<Tariff>) {
    && (forall p :: p in session.periods ==> PriceablePeriod(p))
    && (forall t :: t in tariffs ==> PriceableTariff(t))
  }
}
