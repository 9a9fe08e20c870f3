/** The OCPI 2.3.0 Tariff object, reduced to what pricing reads. Models `src/v2_3_0/tariffs.rs`. */
module Tariffs {
  import opened Wrappers

  /** An instant in UTC, in nanoseconds. */
  type DateTime = int

  /** Whole seconds since the epoch, rounding down. */
  function UnixTimestamp(t: DateTime): int {
    t / 1000000000
  }

  datatype DayOfWeek = Monday | Tuesday | Wednesday | Thursday | Friday | Saturday | Sunday

  /** A wall-clock reading: minutes since midnight, a day number, and the day of the week. */
  datatype LocalParts = LocalParts(time: nat, date: int, weekday: DayOfWeek)

  /** Whether `t` is in `[start, end)`, wrapping past midnight; the whole day when the ends meet. */
  predicate IsWithin(t: nat, start: nat, end: nat) {
    if start == end then true
    else if start < end then start <= t < end
    else start <= t || t < end
  }

  datatype Dimension = Energy | Flat | ParkingTime | Time

  datatype ReservationRestriction = Reservation | ReservationExpires

  datatype Restrictions = Restrictions(
    startTime: Option<nat>,
    endTime: Option<nat>,
    startDate: Option<int>,
    endDate: Option<int>,
    minKwh: Option<real>,
    maxKwh: Option<real>,
    minCurrent: Option<real>,
    maxCurrent: Option<real>,
    minPower: Option<real>,
    maxPower: Option<real>,
    minDuration: Option<nat>,
    maxDuration: Option<nat>,
    dayOfWeek: seq<DayOfWeek>,
    reservation: Option<ReservationRestriction>
  )

  /** Restrictions with nothing set. */
  const UNRESTRICTED := Restrictions(None, None, None, None, None, None, None, None, None, None,
                                     None, None, [], None)

  datatype PriceComponent = PriceComponent(dimension: Dimension, price: real, vat: Option<real>, stepSize: nat)

  datatype TariffElement = TariffElement(components: seq<PriceComponent>, restrictions: Option<Restrictions>)

  datatype PriceLimit = PriceLimit(beforeTaxes: real, afterTaxes: Option<real>)

  datatype TaxIncluded = Yes | No | NotApplicable

  datatype TariffType = AdHocPayment | ProfileCheap | ProfileFast | ProfileGreen | Regular

  datatype Tariff = Tariff(
    id: string,
    tariffType: Option<TariffType>,
    minPrice: Option<PriceLimit>,
    maxPrice: Option<PriceLimit>,
    elements: seq<TariffElement>,
    taxIncluded: TaxIncluded,
    start: Option<DateTime>,
    end: Option<DateTime>
  ) {
    /** Whether the tariff is in its validity window. */
    predicate IsActiveAt(at: DateTime) {
      (start.Some? ==> start.value <= at) && (end.Some? ==> at < end.value)
    }
  }

  function LowerChar(c: char): char {
    if 'A' <= c <= 'Z' then c + ('a' - 'A') else c
  }

  /** Equality of identifiers, which OCPI compares without regard to ASCII case. */
  predicate EqIgnoreCase(a: string, b: string) {
    |a| == |b| && forall i :: 0 <= i < |a| ==> LowerChar(a[i]) == LowerChar(b[i])
  }
}
