/** Checking a CDR against the cost its own tariff gives it. Models `src/tariffs/verify.rs`. */
module Verify {
  import opened Wrappers
  import opened Decimals
  import opened Sums
  import opened Tariffs
  import opened Breakdown
  import opened Selection
  import New = Ocpi230

  /** The figures of a CDR that are checked. */
  datatype Cdr = Cdr(
    start: DateTime,
    end: DateTime,
    totalCost: New.Price,
    totalEnergyCost: Option<New.Price>,
    totalTimeCost: Option<New.Price>,
    totalParkingCost: Option<New.Price>,
    totalFixedCost: Option<New.Price>,
    totalReservationCost: Option<New.Price>,
    totalEnergy: real,
    totalTime: real,
    totalParkingTime: Option<real>
  )

  datatype Discrepancy =
    | TotalBeforeTaxes
    | TotalAfterTaxes
    | EnergyCost
    | TimeCost
    | ParkingCost
    | FixedCost
    | ReservationCost
    | EnergyVolume
    | TimeVolume
    | ParkingVolume

  /** The order divergences are listed in. */
  function Rank(d: Discrepancy): nat {
    match d
    case TotalBeforeTaxes => 0
    case TotalAfterTaxes => 1
    case EnergyCost => 2
    case TimeCost => 3
    case ParkingCost => 4
    case FixedCost => 5
    case ReservationCost => 6
    case EnergyVolume => 7
    case TimeVolume => 8
    case ParkingVolume => 9
  }

  datatype Divergence = Divergence(what: Discrepancy, claimed: real, computed: real)

  // ---------------------------------------------------------------------------------------
  // Reading a breakdown
  // ---------------------------------------------------------------------------------------

  /** One dimension of a breakdown, if it was priced. */
  function DimensionIn(dimensions: seq<DimensionCost>, d: Dimension): Option<DimensionCost> {
    match FirstWhere(dimensions, (x: DimensionCost) => x.dimension == d)
    case None => None
    case Some(i) => Some(dimensions[i])
  }

  function CostOf(b: CostBreakdown, d: Dimension): real {
    match DimensionIn(b.dimensions, d)
    case None => 0.0
    case Some(x) => x.cost
  }

  function MeasuredOf(b: CostBreakdown, d: Dimension): real {
    match DimensionIn(b.dimensions, d)
    case None => 0.0
    case Some(x) => x.measured
  }

  function TimeSegments(b: CostBreakdown): seq<PricedSegment> {
    match DimensionIn(b.dimensions, Time)
    case None => []
    case Some(x) => x.segments
  }

  function ReservedCost(s: PricedSegment): real { if s.applied.reservation then s.cost else 0.0 }
  function ChargingCost(s: PricedSegment): real { if s.applied.reservation then 0.0 else s.cost }

  /** The `TIME` dimension split into charging and reserved time by the audit trail. */
  method SplitTimeCost(b: CostBreakdown) returns (charging: real, reserved: real)
    ensures charging == SumBy(TimeSegments(b), ChargingCost)
    ensures reserved == SumBy(TimeSegments(b), ReservedCost)
  {
    var segments := TimeSegments(b);
    charging, reserved := 0.0, 0.0;
    for i := 0 to |segments|
      invariant charging == SumBy(segments[..i], ChargingCost)
      invariant reserved == SumBy(segments[..i], ReservedCost)
    {
      SumPrefix(segments, ChargingCost, i);
      SumPrefix(segments, ReservedCost, i);
      if segments[i].applied.reservation {
        reserved := reserved + segments[i].cost;
      } else {
        charging := charging + segments[i].cost;
      }
    }
    SumAll(segments, ChargingCost);
    SumAll(segments, ReservedCost);
  }

  /** The duration of the session in hours, from the CDR's own timestamps. */
  function SessionHours(cdr: Cdr): real {
    (UnixTimestamp(cdr.end) - UnixTimestamp(cdr.start)) as real / 3600.0
  }

  // ---------------------------------------------------------------------------------------
  // The comparisons
  // ---------------------------------------------------------------------------------------

  /** A flat fee beside parking or reserved time belongs to one of three fields, and nothing says which. */
  predicate Attributable(b: CostBreakdown) {
    CostOf(b, Flat) == 0.0
    || (CostOf(b, ParkingTime) == 0.0 && SumBy(TimeSegments(b), ReservedCost) == 0.0)
  }

  function ClaimedCost(price: Option<New.Price>, computed: real): Option<(real, real)> {
    if price.None? then None else Some((price.value.beforeTaxes, computed))
  }

  /** What the CDR claims for one figure and what it is compared with, when it is compared. */
  function Compared(cdr: Cdr, b: CostBreakdown, what: Discrepancy): Option<(real, real)> {
    match what
    case TotalBeforeTaxes => Some((cdr.totalCost.beforeTaxes, b.totalExclVat))
    case TotalAfterTaxes => Some((cdr.totalCost.AfterTaxes(), b.totalInclVat))
    case EnergyCost => ClaimedCost(cdr.totalEnergyCost, CostOf(b, Energy))
    case TimeCost => ClaimedCost(cdr.totalTimeCost, SumBy(TimeSegments(b), ChargingCost))
    case ParkingCost => if Attributable(b) then ClaimedCost(cdr.totalParkingCost, CostOf(b, ParkingTime)) else None
    case FixedCost => if Attributable(b) then ClaimedCost(cdr.totalFixedCost, CostOf(b, Flat)) else None
    case ReservationCost =>
      if Attributable(b) then ClaimedCost(cdr.totalReservationCost, SumBy(TimeSegments(b), ReservedCost)) else None
    case EnergyVolume => Some((cdr.totalEnergy, MeasuredOf(b, Energy)))
    case TimeVolume => Some((cdr.totalTime, SessionHours(cdr)))
    case ParkingVolume =>
      if cdr.totalParkingTime.None? then None else Some((cdr.totalParkingTime.value, MeasuredOf(b, ParkingTime)))
  }

  /** Whether `d` is a comparison of the CDR that is out by more than the tolerance. */
  predicate Diverges(cdr: Cdr, b: CostBreakdown, tolerance: real, d: Divergence) {
    Compared(cdr, b, d.what) == Some((d.claimed, d.computed)) && Abs(d.claimed - d.computed) > tolerance
  }

  predicate InOrder(ds: seq<Divergence>) {
    forall i, j :: 0 <= i < j < |ds| ==> Rank(ds[i].what) < Rank(ds[j].what)
  }

  /** `ds` lists every divergence of the CDR once, in order, and nothing else. */
  ghost predicate Verifies(cdr: Cdr, b: CostBreakdown, tolerance: real, ds: seq<Divergence>) {
    InOrder(ds) && forall d :: d in ds <==> Diverges(cdr, b, tolerance, d)
  }

  method Compare(ds: seq<Divergence>, tolerance: real, what: Discrepancy, claimed: real, computed: real)
    returns (r: seq<Divergence>)
    ensures r == if Abs(claimed - computed) > tolerance then ds + [Divergence(what, claimed, computed)] else ds
  {
    r := ds;
    if Abs(claimed - computed) > tolerance {
      r := r + [Divergence(what, claimed, computed)];
    }
  }

  /** `ds` holds the divergences of `compared`, each figure at most once. */
  ghost predicate Holds(cdr: Cdr, b: CostBreakdown, tolerance: real, compared: set<Discrepancy>, ds: seq<Divergence>) {
    (forall i, j :: 0 <= i < j < |ds| ==> ds[i].what != ds[j].what)
    && forall d :: d in ds <==> d.what in compared && Diverges(cdr, b, tolerance, d)
  }

  lemma HoldsStep(cdr: Cdr, b: CostBreakdown, tolerance: real, compared: set<Discrepancy>, ds: seq<Divergence>,
                  what: Discrepancy)
    requires Holds(cdr, b, tolerance, compared, ds) && what !in compared
    ensures var c := Compared(cdr, b, what);
            Holds(cdr, b, tolerance, compared + {what},
                  if c.Some? && Abs(c.value.0 - c.value.1) > tolerance
                  then ds + [Divergence(what, c.value.0, c.value.1)] else ds)
  {
    hide Compared;
    assert forall i :: 0 <= i < |ds| ==> ds[i] in ds && ds[i].what != what;
  }

  /** Inserts a divergence after those that rank below it. */
  function Insert(ds: seq<Divergence>, d: Divergence): seq<Divergence> {
    if ds == [] then [d]
    else
      var n := |ds| - 1;
      if Rank(ds[n].what) <= Rank(d.what) then ds + [d] else Insert(ds[..n], d) + [ds[n]]
  }

  function SortByRank(ds: seq<Divergence>): seq<Divergence> {
    if ds == [] then [] else Insert(SortByRank(ds[..|ds| - 1]), ds[|ds| - 1])
  }

  lemma RankIsInjective(a: Discrepancy, b: Discrepancy)
    requires Rank(a) == Rank(b)
    ensures a == b
  {
  }

  lemma {:induction false} InsertInOrder(ds: seq<Divergence>, d: Divergence)
    requires InOrder(ds) && forall x :: x in ds ==> Rank(x.what) != Rank(d.what)
    ensures InOrder(Insert(ds, d)) && forall x :: x in Insert(ds, d) <==> x in ds || x == d
  {
    hide Rank;
    if ds == [] {
    } else {
      var n := |ds| - 1;
      assert ds == ds[..n] + [ds[n]];
      assert ds[n] in ds;
      if Rank(d.what) < Rank(ds[n].what) {
        InsertInOrder(ds[..n], d);
        var r := Insert(ds[..n], d);
        forall i | 0 <= i < |r|
          ensures Rank(r[i].what) < Rank(ds[n].what)
        {
          assert r[i] in r;
        }
      }
    }
  }

  lemma {:induction false} SortInOrder(ds: seq<Divergence>)
    requires forall i, j :: 0 <= i < j < |ds| ==> ds[i].what != ds[j].what
    ensures InOrder(SortByRank(ds)) && forall x :: x in SortByRank(ds) <==> x in ds
  {
    hide Rank, Insert, InOrder;
    if ds == [] {
      EmptyInOrder();
    } else {
      var n := |ds| - 1;
      SortInOrder(ds[..n]);
      forall x | x in SortByRank(ds[..n])
        ensures Rank(x.what) != Rank(ds[n].what)
      {
        var i :| 0 <= i < n && ds[..n][i] == x;
        if Rank(x.what) == Rank(ds[n].what) {
          RankIsInjective(ds[i].what, ds[n].what);
        }
      }
      InsertInOrder(SortByRank(ds[..n]), ds[n]);
      assert ds == ds[..n] + [ds[n]];
    }
  }

  lemma EmptyInOrder()
    ensures InOrder([])
  {
  }

  /** One of the cost fields a CDR breaks out, and what it is compared with. */
  datatype CostField = CostField(what: Discrepancy, claimed: Option<New.Price>, computed: real)

  /** Compares every figure of a CDR with its breakdown, listing those out by more than `tolerance`. */
  method VerifyCdrWithin(cdr: Cdr, b: CostBreakdown, tolerance: real) returns (divergences: seq<Divergence>)
    ensures Verifies(cdr, b, tolerance, divergences)
  {
    hide Holds, Verifies, SortByRank, New.Price.AfterTaxes, CostOf, MeasuredOf, TimeSegments, SessionHours;
    var ds := [];
    HoldsNothing(cdr, b, tolerance);
    HoldsStep(cdr, b, tolerance, {}, ds, TotalBeforeTaxes);
    ds := Compare(ds, tolerance, TotalBeforeTaxes, cdr.totalCost.beforeTaxes, b.totalExclVat);
    HoldsStep(cdr, b, tolerance, {} + {TotalBeforeTaxes}, ds, TotalAfterTaxes);
    ds := Compare(ds, tolerance, TotalAfterTaxes, cdr.totalCost.AfterTaxes(), b.totalInclVat);
    ghost var compared := {} + {TotalBeforeTaxes} + {TotalAfterTaxes};

    var costs := CostFields(cdr, b);
    ds := CompareCosts(cdr, b, tolerance, costs, ds, compared);
    compared := compared + set i | 0 <= i < |costs| :: costs[i].what;
    ds := CompareVolumes(cdr, b, tolerance, ds, compared);
    ghost var all := compared + {EnergyVolume, ParkingVolume, TimeVolume};
    AllCompared(cdr, b, costs, all);
    HoldsIsVerifies(cdr, b, tolerance, all, ds);
    divergences := SortByRank(ds);
  }

  /** The cost fields that are compared, when the CDR breaks them out. */
  method CostFields(cdr: Cdr, b: CostBreakdown) returns (costs: seq<CostField>)
    ensures forall i :: 0 <= i < |costs| ==>
              Compared(cdr, b, costs[i].what) == ClaimedCost(costs[i].claimed, costs[i].computed)
    ensures forall i :: 0 <= i < |costs| ==> Rank(costs[i].what) == 2 + i
    ensures |costs| == if Attributable(b) then 5 else 2
  {
    hide CostOf, TimeSegments;
    var parkingCost := CostOf(b, ParkingTime);
    var flatCost := CostOf(b, Flat);
    var chargingTimeCost, reservationCost := SplitTimeCost(b);
    var attributable := flatCost == 0.0 || (parkingCost == 0.0 && reservationCost == 0.0);
    costs := [CostField(EnergyCost, cdr.totalEnergyCost, CostOf(b, Energy)),
              CostField(TimeCost, cdr.totalTimeCost, chargingTimeCost)];
    if attributable {
      costs := costs + [CostField(ParkingCost, cdr.totalParkingCost, parkingCost),
                        CostField(FixedCost, cdr.totalFixedCost, flatCost),
                        CostField(ReservationCost, cdr.totalReservationCost, reservationCost)];
    }
  }

  lemma AllCompared(cdr: Cdr, b: CostBreakdown, costs: seq<CostField>, compared: set<Discrepancy>)
    requires {TotalBeforeTaxes, TotalAfterTaxes, EnergyVolume, ParkingVolume, TimeVolume} <= compared
    requires forall i :: 0 <= i < |costs| ==> costs[i].what in compared && Rank(costs[i].what) == 2 + i
    requires |costs| == if Attributable(b) then 5 else 2
    ensures forall what :: Compared(cdr, b, what).Some? ==> what in compared
  {
    hide Attributable;
    forall what | Compared(cdr, b, what).Some?
      ensures what in compared
    {
      if 2 <= Rank(what) < 7 {
        RankIsInjective(what, costs[Rank(what) - 2].what);
      }
    }
  }

  lemma HoldsNothing(cdr: Cdr, b: CostBreakdown, tolerance: real)
    ensures Holds(cdr, b, tolerance, {}, [])
  {
  }

  /** Once every figure that is compared was, the sorted list is the whole answer. */
  lemma HoldsIsVerifies(cdr: Cdr, b: CostBreakdown, tolerance: real, compared: set<Discrepancy>, ds: seq<Divergence>)
    requires Holds(cdr, b, tolerance, compared, ds)
    requires forall what :: Compared(cdr, b, what).Some? ==> what in compared
    ensures Verifies(cdr, b, tolerance, SortByRank(ds))
  {
    hide Compared, SortByRank, InOrder;
    SortInOrder(ds);
  }

  method CompareCosts(cdr: Cdr, b: CostBreakdown, tolerance: real, costs: seq<CostField>, ds0: seq<Divergence>,
                      ghost compared: set<Discrepancy>)
    returns (ds: seq<Divergence>)
    requires Holds(cdr, b, tolerance, compared, ds0)
    requires forall i :: 0 <= i < |costs| ==>
               Compared(cdr, b, costs[i].what) == ClaimedCost(costs[i].claimed, costs[i].computed)
    requires forall i :: 0 <= i < |costs| ==> costs[i].what !in compared
    requires forall i, j :: 0 <= i < j < |costs| ==> costs[i].what != costs[j].what
    ensures Holds(cdr, b, tolerance, compared + (set i | 0 <= i < |costs| :: costs[i].what), ds)
  {
    hide Compared, Holds;
    ds := ds0;
    ghost var all := compared;
    for i := 0 to |costs|
      invariant Holds(cdr, b, tolerance, all, ds)
      invariant all == compared + set j | 0 <= j < i :: costs[j].what
    {
      HoldsStep(cdr, b, tolerance, all, ds, costs[i].what);
      if costs[i].claimed.Some? {
        ds := Compare(ds, tolerance, costs[i].what, costs[i].claimed.value.beforeTaxes, costs[i].computed);
      }
      all := all + {costs[i].what};
    }
  }

  method CompareVolumes(cdr: Cdr, b: CostBreakdown, tolerance: real, ds0: seq<Divergence>,
      ghost compared: set<Discrepancy>)
    returns (ds: seq<Divergence>)
    requires Holds(cdr, b, tolerance, compared, ds0)
    requires EnergyVolume !in compared && ParkingVolume !in compared && TimeVolume !in compared
    ensures Holds(cdr, b, tolerance, compared + {EnergyVolume, ParkingVolume, TimeVolume}, ds)
  {
    hide Holds;
    HoldsStep(cdr, b, tolerance, compared, ds0, EnergyVolume);
    ds := Compare(ds0, tolerance, EnergyVolume, cdr.totalEnergy, MeasuredOf(b, Energy));
    HoldsStep(cdr, b, tolerance, compared + {EnergyVolume}, ds, ParkingVolume);
    if cdr.totalParkingTime.Some? {
      ds := Compare(ds, tolerance, ParkingVolume, cdr.totalParkingTime.value, MeasuredOf(b, ParkingTime));
    }
    HoldsStep(cdr, b, tolerance, compared + {EnergyVolume} + {ParkingVolume}, ds, TimeVolume);
    ds := Compare(ds, tolerance, TimeVolume, cdr.totalTime, SessionHours(cdr));
    assert compared + {EnergyVolume} + {ParkingVolume} + {TimeVolume}
           == compared + {EnergyVolume, ParkingVolume, TimeVolume};
  }
}
