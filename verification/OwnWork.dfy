/**
 * What verification says of the engine's own work, and what a divergence in a volume means.
 */
module OwnWork {
  import opened Wrappers
  import opened Decimals
  import opened Sums
  import opened Grouping
  import opened Policy
  import opened Tariffs
  import opened Input
  import opened Lookup
  import opened Breakdown
  import opened Selection
  import opened Segments
  import opened Quantise
  import opened TaxLines
  import opened Finish
  import opened Price
  import opened Verify
  import New = Ocpi230

  /** A CDR agrees exactly when every figure it is compared on is within the tolerance. */
  lemma AgreesExactly(cdr: Cdr, b: CostBreakdown, tolerance: real, ds: seq<Divergence>)
    requires Verifies(cdr, b, tolerance, ds)
    ensures ds == [] <==> forall what :: var c := Compared(cdr, b, what);
                                         c.Some? ==> Abs(c.value.0 - c.value.1) <= tolerance
  {
    hide Compared;
    if ds != [] {
      assert ds[0] in ds;
      assert Diverges(cdr, b, tolerance, ds[0]);
    } else {
      forall what | Compared(cdr, b, what).Some?
        ensures var c := Compared(cdr, b, what); Abs(c.value.0 - c.value.1) <= tolerance
      {
        var c := Compared(cdr, b, what).value;
        assert Divergence(what, c.0, c.1) !in ds;
      }
    }
  }

  // ---------------------------------------------------------------------------------------
  // The dimensions of a finished breakdown
  // ---------------------------------------------------------------------------------------

  /** A dimension is in the breakdown exactly when something of it was priced. */
  lemma DimensionFound(policy: PricingPolicy, segments: seq<Segment>, d: Dimension)
    ensures var found := DimensionIn(DimensionsOf(policy, segments), d);
            var list := OfDimension(segments, d);
            found == if list == [] then None else Some(DimensionOf(policy, Group(d, list), QuantisedTime(segments)))
  {
    hide DimensionOf, QuantisedTime, WithKey, FirstSeen;
    var dimensions := DimensionsOf(policy, segments);
    var seen := FirstSeen(segments, DimensionKey);
    forall i | 0 <= i < |seen|
      ensures dimensions[i].dimension == seen[i]
    {
      KeepsDimension(policy, Groups(segments)[i], QuantisedTime(segments));
    }
    SeenExactly(segments, DimensionKey, d);
    if d in seen {
      var i :| 0 <= i < |seen| && seen[i] == d;
      assert dimensions[i].dimension == d;
    }
  }

  lemma KeepsDimension(policy: PricingPolicy, g: Group, time: Option<Dimension>)
    ensures DimensionOf(policy, g, time).dimension == g.dimension
  {
  }

  /** Charging and reserved time partition what the `TIME` dimension costs. */
  lemma TimeCostPartitioned(policy: PricingPolicy, session: PricedSession, tariffs: seq<Tariff>)
    requires Priced(policy, session, tariffs).Ok?
    ensures var b := Priced(policy, session, tariffs).value;
            SumBy(TimeSegments(b), ChargingCost) + SumBy(TimeSegments(b), ReservedCost) == CostOf(b, Time)
  {
    var b := Priced(policy, session, tariffs).value;
    var segments := PricedSegments(policy, session, tariffs);
    hide Priced, DimensionOf, DimensionsOf, QuantisedTime, DimensionIn, OfDimension;
    DimensionFound(policy, segments, Time);
    var list := OfDimension(segments, Time);
    if list != [] {
      DimensionCostExact(policy, Group(Time, list), QuantisedTime(segments));
      SumAdd(TimeSegments(b), ChargingCost, ReservedCost, Cost);
    }
  }

  /** The segments a breakdown's dimensions come from. */
  lemma PricedSegments(policy: PricingPolicy, session: PricedSession, tariffs: seq<Tariff>)
    returns (segments: seq<Segment>)
    requires Priced(policy, session, tariffs).Ok?
    ensures Planned(session, tariffs, |session.periods|).Ok?
    ensures segments == Collect(Planned(session, tariffs, |session.periods|).value)
    ensures Priced(policy, session, tariffs).value.dimensions == DimensionsOf(policy, segments)
  {
    hide CheckRange, SelectByPreference, Planned, Collect, CollectNotes, OrderNotes, DimensionsOf, NoteSplits,
         Presented, FinishNotes, ExclTotal, InclTotal, LimitOf, BaseRatio, SummariseBasis;
    segments := Collect(Planned(session, tariffs, |session.periods|).value);
  }

  // ---------------------------------------------------------------------------------------
  // A CDR filled in from a breakdown
  // ---------------------------------------------------------------------------------------

  /** A tax line as a named tax amount: `VAT` when it has a rate, `TAX` when it could not be attributed. */
  function ToTaxAmount(t: TaxLine): New.TaxAmount {
    New.TaxAmount(if t.percentage.Some? then "VAT" else "TAX", None, t.percentage, t.amount, map[])
  }

  /** The result of a pricing run as an OCPI 2.3.0 price. */
  function ToPrice(b: CostBreakdown): New.Price {
    New.Price(b.totalExclVat,
              seq(|b.taxes|, i requires 0 <= i < |b.taxes| => ToTaxAmount(b.taxes[i])), map[])
  }

  /** A cost field left out, or filled in with what the breakdown says. */
  predicate Breaks(price: Option<New.Price>, cost: real) {
    price.Some? ==> price.value.beforeTaxes == cost
  }

  /** The whole seconds between the two timestamps of a CDR. */
  function SessionSeconds(cdr: Cdr): real {
    (cdr.end / 1000000000 - cdr.start / 1000000000) as real
  }

  /** A CDR filled in from a breakdown: total, dimension costs, measured volumes, duration. */
  predicate FilledFrom(cdr: Cdr, b: CostBreakdown) {
    && cdr.totalCost == ToPrice(b)
    && Breaks(cdr.totalEnergyCost, CostOf(b, Energy))
    && Breaks(cdr.totalTimeCost, CostOf(b, Time) - SumBy(TimeSegments(b), ReservedCost))
    && Breaks(cdr.totalParkingCost, CostOf(b, ParkingTime))
    && Breaks(cdr.totalFixedCost, CostOf(b, Flat))
    && Breaks(cdr.totalReservationCost, SumBy(TimeSegments(b), ReservedCost))
    && cdr.totalEnergy == MeasuredOf(b, Energy)
    && cdr.totalTime * 3600.0 == SessionSeconds(cdr)
    && (cdr.totalParkingTime.Some? ==> cdr.totalParkingTime.value == MeasuredOf(b, ParkingTime))
  }

  /** The published price of a breakdown states its inclusive total. */
  lemma PublishedPriceAddsUp(policy: PricingPolicy, session: PricedSession, tariffs: seq<Tariff>)
    requires Priced(policy, session, tariffs).Ok?
    ensures var b := Priced(policy, session, tariffs).value; ToPrice(b).AfterTaxes() == b.totalInclVat
  {
    EveryBreakdownAddsUp(policy, session, tariffs);
    var b := Priced(policy, session, tariffs).value;
    hide Priced;
    SumCongruent(ToPrice(b).taxes, New.AmountOf, b.taxes, Amount);
  }

  /**
   * Verification accepts the engine's own work: a CDR filled in from the breakdown of a session
   * has no divergence, at any tolerance of zero or more.
   */
  lemma OwnWorkVerifies(policy: PricingPolicy, session: PricedSession, tariffs: seq<Tariff>, cdr: Cdr, tolerance: real,
                        ds: seq<Divergence>)
    requires Priced(policy, session, tariffs).Ok? && tolerance >= 0.0
    requires FilledFrom(cdr, Priced(policy, session, tariffs).value)
    requires Verifies(cdr, Priced(policy, session, tariffs).value, tolerance, ds)
    ensures ds == []
  {
    var b := Priced(policy, session, tariffs).value;
    PublishedPriceAddsUp(policy, session, tariffs);
    TimeCostPartitioned(policy, session, tariffs);
    hide Priced, CostOf, MeasuredOf, TimeSegments, ToPrice, SumBy, New.Price.AfterTaxes, SessionHours, Attributable;
    assert ToPrice(b).beforeTaxes == b.totalExclVat by {
      PriceBeforeTaxes(b);
    }
    if ds != [] {
      var d := ds[0];
      assert d in ds && Diverges(cdr, b, tolerance, d);
      EveryFigureMatches(cdr, b, d.what);
    }
  }

  lemma PriceBeforeTaxes(b: CostBreakdown)
    ensures ToPrice(b).beforeTaxes == b.totalExclVat
  {
  }

  lemma EveryFigureMatches(cdr: Cdr, b: CostBreakdown, what: Discrepancy)
    requires FilledFrom(cdr, b) && Compared(cdr, b, what).Some?
    requires ToPrice(b).AfterTaxes() == b.totalInclVat
    requires SumBy(TimeSegments(b), ChargingCost) + SumBy(TimeSegments(b), ReservedCost) == CostOf(b, Time)
    ensures Compared(cdr, b, what).value.0 == Compared(cdr, b, what).value.1
  {
    PriceBeforeTaxes(b);
    hide CostOf, MeasuredOf, TimeSegments, ToPrice, SumBy, New.Price.AfterTaxes, Attributable;
  }

  // ---------------------------------------------------------------------------------------
  // What a divergence says
  // ---------------------------------------------------------------------------------------

  /** Whether a figure is among the divergences. */
  predicate Listed(ds: seq<Divergence>, what: Discrepancy) {
    exists d :: d in ds && d.what == what
  }

  lemma ListedExactly(cdr: Cdr, b: CostBreakdown, tolerance: real, ds: seq<Divergence>, what: Discrepancy)
    requires Verifies(cdr, b, tolerance, ds)
    ensures var c := Compared(cdr, b, what);
            Listed(ds, what) <==> c.Some? && Abs(c.value.0 - c.value.1) > tolerance
  {
    hide Compared, InOrder;
    var c := Compared(cdr, b, what);
    if c.Some? && Abs(c.value.0 - c.value.1) > tolerance {
      assert Diverges(cdr, b, tolerance, Divergence(what, c.value.0, c.value.1));
    }
    if Listed(ds, what) {
      var d :| d in ds && d.what == what;
      assert Diverges(cdr, b, tolerance, d);
    }
  }

  /** The figures of a CDR in the order they are reported: the totals, the costs, the volumes. */
  const REPORTED := [TotalBeforeTaxes, TotalAfterTaxes, EnergyCost, TimeCost, ParkingCost, FixedCost,
                     ReservationCost, EnergyVolume, TimeVolume, ParkingVolume]

  /** Divergences are reported in that order, each figure once. */
  lemma ReportedInOrder(cdr: Cdr, b: CostBreakdown, tolerance: real, ds: seq<Divergence>, i: nat, j: nat)
    requires Verifies(cdr, b, tolerance, ds) && i < j < |ds|
    ensures exists m, n :: 0 <= m < n < |REPORTED| && ds[i].what == REPORTED[m] && ds[j].what == REPORTED[n]
  {
    hide Compared;
    assert Rank(ds[i].what) < Rank(ds[j].what);
    forall what
      ensures Rank(what) < |REPORTED| && REPORTED[Rank(what)] == what
    {
      match what {
        case TotalBeforeTaxes =>
        case TotalAfterTaxes =>
        case EnergyCost =>
        case TimeCost =>
        case ParkingCost =>
        case FixedCost =>
        case ReservationCost =>
        case EnergyVolume =>
        case TimeVolume =>
        case ParkingVolume =>
      }
    }
  }

  /**
   * `total_time` is in hours: it diverges exactly when the seconds it stands for are further from
   * those between the two timestamps than the seconds the tolerance stands for.
   */
  lemma SessionTimeDiverges(cdr: Cdr, b: CostBreakdown, tolerance: real, ds: seq<Divergence>)
    requires Verifies(cdr, b, tolerance, ds)
    ensures Listed(ds, TimeVolume) <==> Abs(cdr.totalTime * 3600.0 - SessionSeconds(cdr)) > 3600.0 * tolerance
  {
    hide Verifies, Listed;
    ListedExactly(cdr, b, tolerance, ds, TimeVolume);
  }

  /** Parking or reserved time was charged for beside a flat fee, which may belong to either. */
  predicate FlatFeeInDispute(b: CostBreakdown) {
    CostOf(b, Flat) != 0.0 && (CostOf(b, ParkingTime) != 0.0 || SumBy(TimeSegments(b), ReservedCost) != 0.0)
  }

  /** A cost that is broken out and further from `cost` than the tolerance. */
  predicate Misstated(claimed: Option<New.Price>, cost: real, tolerance: real) {
    claimed.Some? && Abs(claimed.value.beforeTaxes - cost) > tolerance
  }

  /**
   * What a divergence in a cost means. The three fields a flat fee may belong to are never
   * disputed when parking or reserved time was charged for beside one; otherwise each of the
   * five diverges exactly when it is broken out and misstates the cost of its own dimension.
   */
  lemma CostsDiverge(cdr: Cdr, b: CostBreakdown, tolerance: real, ds: seq<Divergence>)
    requires Verifies(cdr, b, tolerance, ds)
    ensures var reserved := SumBy(TimeSegments(b), ReservedCost);
            var charging := SumBy(TimeSegments(b), ChargingCost);
            && (Listed(ds, EnergyCost) <==> Misstated(cdr.totalEnergyCost, CostOf(b, Energy), tolerance))
            && (Listed(ds, TimeCost) <==> Misstated(cdr.totalTimeCost, charging, tolerance))
            && (Listed(ds, ParkingCost)
                <==> !FlatFeeInDispute(b) && Misstated(cdr.totalParkingCost, CostOf(b, ParkingTime), tolerance))
            && (Listed(ds, FixedCost)
                <==> !FlatFeeInDispute(b) && Misstated(cdr.totalFixedCost, CostOf(b, Flat), tolerance))
            && (Listed(ds, ReservationCost)
                <==> !FlatFeeInDispute(b) && Misstated(cdr.totalReservationCost, reserved, tolerance))
  {
    hide Verifies, Listed, CostOf, TimeSegments, SumBy;
    ListedExactly(cdr, b, tolerance, ds, EnergyCost);
    ListedExactly(cdr, b, tolerance, ds, TimeCost);
    ListedExactly(cdr, b, tolerance, ds, ParkingCost);
    ListedExactly(cdr, b, tolerance, ds, FixedCost);
    ListedExactly(cdr, b, tolerance, ds, ReservationCost);
  }

  /** A list with one entry for each dimension. */
  predicate OncePerDimension(dimensions: seq<DimensionCost>) {
    forall i, j :: 0 <= i < j < |dimensions| ==> dimensions[i].dimension != dimensions[j].dimension
  }

  lemma ListedIsFound(dimensions: seq<DimensionCost>, x: DimensionCost)
    requires OncePerDimension(dimensions) && x in dimensions
    ensures DimensionIn(dimensions, x.dimension) == Some(x)
  {
    var i :| 0 <= i < |dimensions| && dimensions[i] == x;
    var f := FirstWhere(dimensions, (y: DimensionCost) => y.dimension == x.dimension);
    assert f.value == i;
  }

  lemma UnlistedIsNotFound(dimensions: seq<DimensionCost>, d: Dimension)
    requires forall x :: x in dimensions ==> x.dimension != d
    ensures DimensionIn(dimensions, d).None?
  {
  }

  lemma DimensionsOnce(policy: PricingPolicy, segments: seq<Segment>)
    ensures OncePerDimension(DimensionsOf(policy, segments))
  {
    hide DimensionOf, QuantisedTime, WithKey, FirstSeen;
    SeenOnce(segments, DimensionKey);
    forall i | 0 <= i < |Groups(segments)|
      ensures DimensionsOf(policy, segments)[i].dimension == FirstSeen(segments, DimensionKey)[i]
    {
      KeepsDimension(policy, Groups(segments)[i], QuantisedTime(segments));
    }
  }

  /**
   * The figures a CDR is compared with are those the breakdown publishes, each dimension's under
   * its own name, and nothing for a dimension it does not list.
   */
  lemma FiguresArePublished(policy: PricingPolicy, session: PricedSession, tariffs: seq<Tariff>)
    requires Priced(policy, session, tariffs).Ok?
    ensures var b := Priced(policy, session, tariffs).value;
            && (forall x :: x in b.dimensions ==>
                  CostOf(b, x.dimension) == x.cost && MeasuredOf(b, x.dimension) == x.measured)
            && (forall x :: x in b.dimensions && x.dimension == Time ==> TimeSegments(b) == x.segments)
            && (forall d :: (forall x :: x in b.dimensions ==> x.dimension != d) ==>
                  CostOf(b, d) == 0.0 && MeasuredOf(b, d) == 0.0)
  {
    var segments := PricedSegments(policy, session, tariffs);
    DimensionsOnce(policy, segments);
    hide Priced, DimensionsOf, DimensionIn, OncePerDimension;
    var b := Priced(policy, session, tariffs).value;
    forall x | x in b.dimensions
      ensures DimensionIn(b.dimensions, x.dimension) == Some(x)
    {
      ListedIsFound(b.dimensions, x);
    }
    forall d | forall x :: x in b.dimensions ==> x.dimension != d
      ensures DimensionIn(b.dimensions, d).None?
    {
      UnlistedIsNotFound(b.dimensions, d);
    }
  }

  // ---------------------------------------------------------------------------------------
  // What a breakdown reports as measured
  // ---------------------------------------------------------------------------------------

  /** Some component prices this kind of time, energy or fee for the stretch. */
  predicate IsPriced(s: Stretch, d: Dimension, reserving: bool) {
    FindComponent(s.plan.tariff, d, s.plan.context.Reserving(reserving)).Some?
  }

  /** The energy of a period that some component prices. */
  function PricedEnergy(s: Stretch): real {
    if IsPriced(s, Energy, false) then s.period.energyKwh else 0.0
  }

  /** The charging and reserved time of a period, each as far as some component prices it. */
  function PricedTime(s: Stretch): real {
    (if IsPriced(s, Time, false) then s.period.chargingHours else 0.0)
    + (if IsPriced(s, Time, true) then s.period.reservationHours else 0.0)
  }

  function PricedParking(s: Stretch): real {
    if IsPriced(s, ParkingTime, false) then s.period.parkingHours else 0.0
  }

  /** What of a dimension is priced in a period; a flat fee has no measure. */
  function PricedAmount(d: Dimension): Stretch -> real
    requires !d.Flat?
  {
    match d
    case Energy => PricedEnergy
    case ParkingTime => PricedParking
    case _ => PricedTime
  }

  function PeriodEnergy(s: Stretch): real { s.period.energyKwh }

  /** The energy of a period that nothing prices. */
  function UnpricedEnergy(s: Stretch): real {
    if IsPriced(s, Energy, false) then 0.0 else s.period.energyKwh
  }

  lemma StretchAmount(s: Stretch, d: Dimension)
    requires !d.Flat?
    ensures KeySum(s.Quantities(), DimensionKey, Quantity, d) == PricedAmount(d)(s)
  {
    hide FindComponent, QuantitySegments, KeySum;
    var c := PeriodQuantities(s.period);
    QuantitiesOf(s, c, 4, d);
    QuantitiesOf(s, c, 3, d);
    QuantitiesOf(s, c, 2, d);
    QuantitiesOf(s, c, 1, d);
    assert c[..4] == c;
    NoQuantities(s, c, d);
  }

  lemma NoQuantities(s: Stretch, c: seq<Consumed>, d: Dimension)
    ensures KeySum(QuantitySegments(s.plan, s.period, c[..0]), DimensionKey, Quantity, d) == 0.0
  {
  }

  lemma QuantitiesOf(s: Stretch, c: seq<Consumed>, n: nat, d: Dimension)
    requires 0 < n <= |c|
    ensures var one := QuantitySegment(s.plan, s.period, c[n - 1]);
            KeySum(QuantitySegments(s.plan, s.period, c[..n]), DimensionKey, Quantity, d)
            == KeySum(QuantitySegments(s.plan, s.period, c[..n - 1]), DimensionKey, Quantity, d)
               + if one.Some? && one.value.dimension == d then one.value.priced.quantity else 0.0
  {
    hide FindComponent, QuantitySegment, KeySum;
    assert c[..n][..n - 1] == c[..n - 1];
    var one := QuantitySegment(s.plan, s.period, c[n - 1]);
    if one.Some? {
      KeySumStep(QuantitySegments(s.plan, s.period, c[..n - 1]), one.value, DimensionKey, Quantity, d);
    } else {
      assert QuantitySegments(s.plan, s.period, c[..n - 1]) + [] == QuantitySegments(s.plan, s.period, c[..n - 1]);
    }
  }

  lemma {:induction false} CollectedAmount(stretches: seq<Stretch>, d: Dimension)
    requires !d.Flat?
    ensures KeySum(Collect(stretches), DimensionKey, Quantity, d) == SumBy(stretches, PricedAmount(d))
  {
    if stretches == [] {
    } else {
      hide FindComponent, FlatSegment, KeySum, QuantitySegments, PricedAmount;
      var n := |stretches| - 1;
      var (before, flat) := (Collect(stretches[..n]),
          if HasFlat(Collect(stretches[..n])) then [] else ToSeq(stretches[n].FlatFee()));
      CollectedAmount(stretches[..n], d);
      StretchAmount(stretches[n], d);
      KeySumConcat(before, stretches[n].Quantities(), d);
      KeySumConcat(before + stretches[n].Quantities(), flat, d);
      FlatHasNoAmount(stretches[n], flat, d);
    }
  }

  lemma KeySumConcat(a: seq<Segment>, b: seq<Segment>, d: Dimension)
    ensures KeySum(a + b, DimensionKey, Quantity, d)
            == KeySum(a, DimensionKey, Quantity, d) + KeySum(b, DimensionKey, Quantity, d)
  {
    WithKeyConcat(a, b, DimensionKey, d);
    SumConcat(WithKey(a, DimensionKey, d), WithKey(b, DimensionKey, d), Quantity);
  }

  lemma FlatHasNoAmount(s: Stretch, flat: seq<Segment>, d: Dimension)
    requires !d.Flat? && (flat == [] || flat == ToSeq(s.FlatFee()))
    ensures KeySum(flat, DimensionKey, Quantity, d) == 0.0
  {
    hide KeySum, Stretch.FlatFee;
    NothingOfNothing(d);
    if flat != [] {
      FeesAreFlat(s);
      KeySumStep([], flat[0], DimensionKey, Quantity, d);
      assert [] + [flat[0]] == flat;
    }
  }

  lemma NothingOfNothing(d: Dimension)
    ensures KeySum([], DimensionKey, Quantity, d) == 0.0
  {
  }

  lemma FeesAreFlat(s: Stretch)
    ensures s.FlatFee().Some? ==> s.FlatFee().value.dimension == Flat
  {
    hide FindComponent;
  }

  /** The stretches of a session that can be planned. */
  function StretchesOf(session: PricedSession, tariffs: seq<Tariff>): seq<Stretch> {
    Planned(session, tariffs, |session.periods|).GetOr([])
  }

  /** The energy of the stretches of a session is that of its periods. */
  lemma StretchesKeepEnergy(session: PricedSession, tariffs: seq<Tariff>)
    requires Planned(session, tariffs, |session.periods|).Ok?
    ensures SumBy(StretchesOf(session, tariffs), PeriodEnergy) == SumBy(session.periods, EnergyKwh)
  {
    hide Planned, PlanOf;
    PlannedMeaning(session, tariffs, |session.periods|);
    SumCongruent(StretchesOf(session, tariffs), PeriodEnergy, session.periods, EnergyKwh);
  }

  /** What a breakdown reports as measured is the rounded sum of the dimension's quantities. */
  lemma MeasuredIsSum(policy: PricingPolicy, segments: seq<Segment>, b: CostBreakdown, d: Dimension)
    requires b.dimensions == DimensionsOf(policy, segments)
    ensures MeasuredOf(b, d) == policy.RoundQuantity(KeySum(segments, DimensionKey, Quantity, d))
  {
    hide DimensionsOf, DimensionIn, QuantisedTime, BilledFor, CostedAll, WithKey,
         PricingPolicy.RoundQuantity, PricingPolicy.RoundComponent;
    DimensionFound(policy, segments, d);
    if OfDimension(segments, d) == [] {
      RoundZero(policy);
    }
  }

  /** Energy is priced by some component or by none. */
  lemma EnergyIsPricedOrNot(stretches: seq<Stretch>)
    ensures SumBy(stretches, PricedEnergy) + SumBy(stretches, UnpricedEnergy) == SumBy(stretches, PeriodEnergy)
  {
    hide FindComponent;
    SumAdd(stretches, PricedEnergy, UnpricedEnergy, PeriodEnergy);
  }

  /**
   * What a breakdown reports as measured of a dimension is what its periods consumed of it, as far
   * as some component prices it, rounded: kilowatt-hours, hours of charging and of reservation
   * together, and hours of parking.
   */
  lemma MeasuredAmount(policy: PricingPolicy, session: PricedSession, tariffs: seq<Tariff>, d: Dimension)
    requires Priced(policy, session, tariffs).Ok? && !d.Flat?
    ensures MeasuredOf(Priced(policy, session, tariffs).value, d)
            == policy.RoundQuantity(SumBy(StretchesOf(session, tariffs), PricedAmount(d)))
  {
    hide Priced, Collect, SumBy, KeySum, MeasuredOf, DimensionsOf, Planned, PricingPolicy.RoundQuantity;
    var segments := PricedSegments(policy, session, tariffs);
    MeasuredIsSum(policy, segments, Priced(policy, session, tariffs).value, d);
    CollectedAmount(StretchesOf(session, tariffs), d);
  }

  lemma EnergyAmount()
    ensures PricedAmount(Energy) == PricedEnergy
  {
  }

  /** The energy a breakdown reports as measured is the rounded energy of the periods that some component prices. */
  lemma MeasuredEnergy(policy: PricingPolicy, session: PricedSession, tariffs: seq<Tariff>)
    requires Priced(policy, session, tariffs).Ok?
    ensures var b := Priced(policy, session, tariffs).value;
            var unpriced := SumBy(StretchesOf(session, tariffs), UnpricedEnergy);
            MeasuredOf(b, Energy) == policy.RoundQuantity(SumBy(session.periods, EnergyKwh) - unpriced)
  {
    hide *;
    var segments := PricedSegments(policy, session, tariffs);
    StretchesKeepEnergy(session, tariffs);
    EnergyAmount();
    MeasuredAmount(policy, session, tariffs, Energy);
    EnergyIsPricedOrNot(StretchesOf(session, tariffs));
  }

  lemma RoundZero(policy: PricingPolicy)
    ensures policy.RoundQuantity(0.0) == 0.0
  {
    ZeroOnGrid(Pow10(policy.quantityDecimals));
    RoundIdentity(policy.rounding, Pow10(policy.quantityDecimals), 0.0);
  }

  /**
   * Periods that nothing prices are left out, so a CDR whose `total_energy` is what its periods
   * add up to is reported as inconsistent with itself exactly when leaving them out moves the
   * rounded figure by more than the tolerance.
   */
  lemma UnpricedEnergyDiverges(policy: PricingPolicy, session: PricedSession, tariffs: seq<Tariff>, cdr: Cdr,
                               tolerance: real, ds: seq<Divergence>)
    requires Priced(policy, session, tariffs).Ok?
    requires cdr.totalEnergy == SumBy(session.periods, EnergyKwh)
    requires Verifies(cdr, Priced(policy, session, tariffs).value, tolerance, ds)
    ensures var total := SumBy(session.periods, EnergyKwh);
            var priced := total - SumBy(StretchesOf(session, tariffs), UnpricedEnergy);
            Listed(ds, EnergyVolume) <==> Abs(total - policy.RoundQuantity(priced)) > tolerance
  {
    hide Priced, StretchesOf, SumBy, PricingPolicy.RoundQuantity, MeasuredOf, Verifies, Listed;
    MeasuredEnergy(policy, session, tariffs);
    ListedExactly(cdr, Priced(policy, session, tariffs).value, tolerance, ds, EnergyVolume);
  }

  /** Ten kilowatt-hours in one period, under a tariff that prices nothing. */
  ghost predicate NothingPriced(session: PricedSession, tariff: Tariff) {
    && OnePeriodUnder(session, tariff) && CheckRange(session, [tariff])
    && session.periods[0].energyKwh == 10.0 && tariff.elements == []
  }

  /** Such a session is priced, and a CDR that states its energy diverges. */
  lemma UnpricedSessionDiverges(policy: PricingPolicy, session: PricedSession, tariff: Tariff, cdr: Cdr,
                                tolerance: real, ds: seq<Divergence>)
    requires NothingPriced(session, tariff) && cdr.totalEnergy == 10.0 && tolerance < 10.0
    ensures Priced(policy, session, [tariff]).Ok?
    ensures Verifies(cdr, Priced(policy, session, [tariff]).value, tolerance, ds) ==>
              Listed(ds, EnergyVolume)
  {
    hide CheckRange, Priced, Planned, InOrder, PricingPolicy.RoundQuantity;
    OnePeriodIsPriced(policy, session, tariff);
    var stretch := OnePeriodIsPlanned(session, tariff);
    assert SumBy(session.periods, EnergyKwh) == 10.0 by {
      SumOne(session.periods[0], EnergyKwh);
      assert session.periods == [session.periods[0]];
    }
    assert SumBy(StretchesOf(session, [tariff]), UnpricedEnergy) == 10.0 by {
      SumOne(stretch, UnpricedEnergy);
    }
    RoundZero(policy);
    if Verifies(cdr, Priced(policy, session, [tariff]).value, tolerance, ds) {
      UnpricedEnergyDiverges(policy, session, [tariff], cdr, tolerance, ds);
    }
  }
}
