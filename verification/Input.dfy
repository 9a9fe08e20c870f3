/** The session a pricing run works on. Models `src/tariffs/input.rs`. */
module Input {
  import opened Wrappers
  import opened Sums
  import opened Tariffs

  datatype PricedPeriod = PricedPeriod(
    start: DateTime,
    energyKwh: real,
    chargingHours: real,
    parkingHours: real,
    reservationHours: real,
    maxCurrent: Option<real>,
    minCurrent: Option<real>,
    maxPower: Option<real>,
    minPower: Option<real>,
    tariffId: Option<string>
  ) {
    /** The measured maximum answers a lower bound, the measured minimum an upper one. */
    function CurrentForLowerBound(): Option<real> {
      if maxCurrent.Some? then maxCurrent else minCurrent
    }

    function CurrentForUpperBound(): Option<real> {
      if minCurrent.Some? then minCurrent else maxCurrent
    }

    function PowerForLowerBound(): Option<real> {
      if maxPower.Some? then maxPower else minPower
    }

    function PowerForUpperBound(): Option<real> {
      if minPower.Some? then minPower else maxPower
    }
  }

  function EnergyKwh(p: PricedPeriod): real { p.energyKwh }

  datatype ProfileType = Cheap | Fast | Green | RegularProfile

  datatype PricedSession = PricedSession(
    start: DateTime,
    end: Option<DateTime>,
    periods: seq<PricedPeriod>,
    zone: DateTime -> Option<LocalParts>,
    profile: Option<ProfileType>,
    adHocPayment: bool,
    reservationExpired: bool
  ) {
    /** The energy charged before period `index`. */
    function EnergyBefore(index: nat): real
      requires index <= |periods|
    {
      SumBy(periods[..index], EnergyKwh)
    }

    /** The seconds between the start of the session and the start of period `index`. */
    function DurationBefore(index: nat): int
      requires index < |periods|
    {
      UnixTimestamp(periods[index].start) - UnixTimestamp(start)
    }

    /** The start of the next period, or the end of the session. */
    function PeriodEnd(index: nat): Option<DateTime>
      requires index < |periods|
    {
      if index + 1 < |periods| then Some(periods[index + 1].start) else end
    }

    /** Whether each period starts after the one before it, from period `index` on. */
    predicate InOrderFrom(index: nat)
      requires 1 <= index
    {
      forall k :: index <= k < |periods| ==> periods[k - 1].start < periods[k].start
    }

    /** The start of the first period that does not begin after the one before it. */
    function FirstOutOfOrder(index: nat := 1): (at: Option<DateTime>)
      requires 1 <= index
      ensures at.None? <==> InOrderFrom(index)
      decreases |periods| - index
    {
      if index >= |periods| then None
      else if periods[index].start <= periods[index - 1].start then Some(periods[index].start)
      else FirstOutOfOrder(index + 1)
    }
  }
}
