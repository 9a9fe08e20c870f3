/**
 * In which units a breakdown bills: parking and charging time in seconds, energy in watt-hours.
 * Over `quantise_and_cost` of `src/tariffs/engine.rs`.
 */
module BlockBilling {
  import opened Wrappers
  import opened Decimals
  import opened Sums
  import opened Grouping
  import opened Policy
  import opened Tariffs
  import opened Input
  import opened Breakdown
  import opened Segments
  import opened Quantise
  import opened Price

  /** What a session measured of one dimension, segment by segment. */
  function MeasuredIn(session: PricedSession, tariffs: seq<Tariff>, d: Dimension): seq<Segment>
    requires Planned(session, tariffs, |session.periods|).Ok?
  {
    OfDimension(Collect(Planned(session, tariffs, |session.periods|).value), d)
  }

  /** The quantities come to `n` whole units of which `perUnit` make a measured one, to half a millionth. */
  predicate ComeTo(list: seq<Segment>, n: int, perUnit: real) {
    Abs(SumBy(list, Quantity) * perUnit - n as real) < 0.0000005
  }

  /** The fewest blocks of the last segment's step that cover `n` units, back in measured units. */
  ghost predicate BilledAs(policy: PricingPolicy, list: seq<Segment>, n: int, perUnit: real, billed: real)
    requires list != [] && perUnit > 0.0
  {
    var step := list[|list| - 1].stepSize;
    exists k :: FewestBlocks(k, step, n) && billed == policy.RoundQuantity((k * step) as real / perUnit)
  }

  /** A dimension of a breakdown is that of the segments of the session. */
  lemma DimensionIs(policy: PricingPolicy, session: PricedSession, tariffs: seq<Tariff>, d: DimensionCost)
    requires Priced(policy, session, tariffs).Ok? && d in Priced(policy, session, tariffs).value.dimensions
    ensures Planned(session, tariffs, |session.periods|).Ok? && MeasuredIn(session, tariffs, d.dimension) != []
    ensures var segments := Collect(Planned(session, tariffs, |session.periods|).value);
            d == DimensionOf(policy, Group(d.dimension, OfDimension(segments, d.dimension)), QuantisedTime(segments))
  {
    PricedDimensions(policy, session, tariffs);
    hide Priced, Planned, Collect, BilledFor, Costed, PricingPolicy.RoundComponent, PricingPolicy.RoundQuantity;
    var segments := Collect(Planned(session, tariffs, |session.periods|).value);
    var i :| 0 <= i < |Groups(segments)| && d == DimensionsOf(policy, segments)[i];
    SeenExactly(segments, DimensionKey, d.dimension);
  }

  lemma BilledExactly(policy: PricingPolicy, d: Dimension, list: seq<Segment>, time: Option<Dimension>, n: int,
                      perUnit: nat)
    requires list != [] && list[|list| - 1].stepSize > 0 && policy.quantisation.StepSize?
    requires IsQuantised(d, time) && perUnit == UnitScale(d) && ComeTo(list, n, perUnit as real)
    ensures BilledAs(policy, list, n, perUnit as real,
                     policy.RoundQuantity(BilledFor(policy.quantisation, d, list, time)))
  {
    hide PricingPolicy.RoundQuantity, FewestBlocks, Apply, SumBy;
    var (step, measured) := (list[|list| - 1].stepSize, SumBy(list, Quantity));
    BlockBillingExact(measured, n, step, perUnit);
    var k := Blocks(n as real, step);
    DivOf((k * step) as real, Apply(StepSize, measured, step, perUnit), perUnit as real);
    assert FewestBlocks(k, step, n);
  }

  /**
   * Parking time is billed in seconds whenever it is priced: `n` whole seconds, measured to half a
   * millionth of one, as the fewest blocks of the last segment's step that cover them.
   */
  lemma ParkingInSeconds(policy: PricingPolicy, session: PricedSession, tariffs: seq<Tariff>, d: DimensionCost, n: int)
    requires Priced(policy, session, tariffs).Ok? && d in Priced(policy, session, tariffs).value.dimensions
    requires policy.quantisation.StepSize? && d.dimension == ParkingTime
    ensures Planned(session, tariffs, |session.periods|).Ok?
    ensures var list := MeasuredIn(session, tariffs, ParkingTime);
            list != []
            && (list[|list| - 1].stepSize > 0 && ComeTo(list, n, 3600.0)
                ==> BilledAs(policy, list, n, 3600.0, d.billed))
  {
    hide Priced, Planned, Collect, OfDimension, BilledAs, ComeTo, PricingPolicy.RoundQuantity, BilledFor;
    DimensionIs(policy, session, tariffs, d);
    var segments := Collect(Planned(session, tariffs, |session.periods|).value);
    var list := MeasuredIn(session, tariffs, ParkingTime);
    if list[|list| - 1].stepSize > 0 && ComeTo(list, n, 3600.0) {
      BilledExactly(policy, ParkingTime, list, QuantisedTime(segments), n, 3600);
    }
  }

  /** So is charging time, when no parking time is priced. */
  lemma TimeInSeconds(policy: PricingPolicy, session: PricedSession, tariffs: seq<Tariff>, d: DimensionCost, n: int)
    requires Priced(policy, session, tariffs).Ok? && d in Priced(policy, session, tariffs).value.dimensions
    requires policy.quantisation.StepSize? && d.dimension == Time
    ensures Planned(session, tariffs, |session.periods|).Ok?
    ensures var list := MeasuredIn(session, tariffs, Time);
            list != []
            && (list[|list| - 1].stepSize > 0 && ComeTo(list, n, 3600.0)
                && MeasuredIn(session, tariffs, ParkingTime) == []
                ==> BilledAs(policy, list, n, 3600.0, d.billed))
  {
    hide Priced, Planned, Collect, OfDimension, BilledAs, ComeTo, PricingPolicy.RoundQuantity, BilledFor;
    DimensionIs(policy, session, tariffs, d);
    var segments := Collect(Planned(session, tariffs, |session.periods|).value);
    var list := MeasuredIn(session, tariffs, Time);
    if list[|list| - 1].stepSize > 0 && ComeTo(list, n, 3600.0) && MeasuredIn(session, tariffs, ParkingTime) == [] {
      BilledExactly(policy, Time, list, QuantisedTime(segments), n, 3600);
    }
  }

  /** And energy is billed in watt-hours. */
  lemma EnergyInWattHours(policy: PricingPolicy, session: PricedSession, tariffs: seq<Tariff>, d: DimensionCost, n: int)
    requires Priced(policy, session, tariffs).Ok? && d in Priced(policy, session, tariffs).value.dimensions
    requires policy.quantisation.StepSize? && d.dimension == Energy
    ensures Planned(session, tariffs, |session.periods|).Ok?
    ensures var list := MeasuredIn(session, tariffs, Energy);
            list != []
            && (list[|list| - 1].stepSize > 0 && ComeTo(list, n, 1000.0)
                ==> BilledAs(policy, list, n, 1000.0, d.billed))
  {
    hide Priced, Planned, Collect, OfDimension, BilledAs, ComeTo, PricingPolicy.RoundQuantity, BilledFor;
    DimensionIs(policy, session, tariffs, d);
    var segments := Collect(Planned(session, tariffs, |session.periods|).value);
    var list := MeasuredIn(session, tariffs, Energy);
    if list[|list| - 1].stepSize > 0 && ComeTo(list, n, 1000.0) {
      BilledExactly(policy, Energy, list, QuantisedTime(segments), n, 1000);
    }
  }

  /** Everything else, and everything without block billing, is billed as measured. */
  lemma BilledAsMeasured(policy: PricingPolicy, session: PricedSession, tariffs: seq<Tariff>, d: DimensionCost)
    requires Priced(policy, session, tariffs).Ok? && d in Priced(policy, session, tariffs).value.dimensions
    ensures Planned(session, tariffs, |session.periods|).Ok?
    ensures var list := MeasuredIn(session, tariffs, d.dimension);
            && list != [] && d.measured == policy.RoundQuantity(SumBy(list, Quantity))
            && ((policy.quantisation.NoQuantisation? || d.dimension == Flat || list[|list| - 1].stepSize == 0
                 || (d.dimension == Time && MeasuredIn(session, tariffs, ParkingTime) != []))
                ==> d.billed == d.measured)
  {
    hide Priced, Planned, Collect, OfDimension, PricingPolicy.RoundQuantity, SumBy;
    DimensionIs(policy, session, tariffs, d);
  }
}
