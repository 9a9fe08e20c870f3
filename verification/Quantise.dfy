/**
 * Block billing, costing and the tax split of one session: `quantise_and_cost` and `split_tax`
 * of `src/tariffs/engine.rs`.
 */
module Quantise {
  import opened Wrappers
  import opened Decimals
  import opened Sums
  import opened Grouping
  import opened Policy
  import opened Tariffs
  import opened Breakdown
  import opened Segments

  function Quantity(s: Segment): real { s.priced.quantity }

  // ---------------------------------------------------------------------------------------
  // Grouping by dimension
  // ---------------------------------------------------------------------------------------

  function DimensionKey(s: Segment): Dimension { s.dimension }

  /** The segments of one dimension, in order. */
  function OfDimension(segments: seq<Segment>, d: Dimension): seq<Segment> {
    WithKey(segments, DimensionKey, d)
  }

  datatype Group = Group(dimension: Dimension, list: seq<Segment>)

  /** Each dimension present with its segments, dimensions in order of first appearance. */
  function Groups(segments: seq<Segment>): seq<Group> {
    var seen := FirstSeen(segments, DimensionKey);
    seq(|seen|, i requires 0 <= i < |seen| => Group(seen[i], OfDimension(segments, seen[i])))
  }

  lemma GroupsStep(segments: seq<Segment>, s: Segment, k: nat)
    requires k <= |Groups(segments)|
    requires forall j :: 0 <= j < k ==> Groups(segments)[j].dimension != s.dimension
    requires k < |Groups(segments)| ==> Groups(segments)[k].dimension == s.dimension
    ensures var groups := Groups(segments);
            Groups(segments + [s])
            == if k == |groups| then groups + [Group(s.dimension, [s])]
               else groups[k := Group(s.dimension, groups[k].list + [s])]
  {
    var (seen, groups) := (FirstSeen(segments, DimensionKey), Groups(segments));
    assert (segments + [s])[..|segments|] == segments;
    assert forall j :: 0 <= j < |groups| ==> groups[j].dimension == seen[j];
    forall d
      ensures OfDimension(segments + [s], d)
              == if s.dimension == d then OfDimension(segments, d) + [s] else OfDimension(segments, d)
    {
      WithKeyStep(segments, s, DimensionKey, d);
    }
    SeenOnce(segments, DimensionKey);
    if k == |groups| {
      assert s.dimension !in seen;
      SeenExactly(segments, DimensionKey, s.dimension);
      assert OfDimension(segments + [s], s.dimension) == [s];
      assert FirstSeen(segments + [s], DimensionKey) == seen + [s.dimension];
      assert Groups(segments + [s]) == groups + [Group(s.dimension, [s])];
    } else {
      assert seen[k] == s.dimension;
      assert Groups(segments + [s]) == groups[k := Group(s.dimension, groups[k].list + [s])];
    }
  }

  /** One segment is one group. */
  lemma SingleGroup(s: Segment)
    ensures Groups([s]) == [Group(s.dimension, [s])]
  {
    assert [] + [s] == [s] && [s][..0] == [];
    WithKeyStep([], s, DimensionKey, s.dimension);
    assert OfDimension([s], s.dimension) == [s];
    assert FirstSeen([s], DimensionKey) == [s.dimension];
  }

  /** Groups the segments by dimension, finding or appending the group of each. */
  method GroupByDimension(segments: seq<Segment>) returns (groups: seq<Group>)
    ensures groups == Groups(segments)
  {
    assert Groups([]) == [];
    groups := [];
    hide Groups;
    for i := 0 to |segments|
      invariant groups == Groups(segments[..i])
    {
      var s := segments[i];
      var k := 0;
      while k < |groups| && groups[k].dimension != s.dimension
        invariant 0 <= k <= |groups|
        invariant forall j :: 0 <= j < k ==> groups[j].dimension != s.dimension
      {
        k := k + 1;
      }
      GroupsStep(segments[..i], s, k);
      assert segments[..i + 1] == segments[..i] + [s];
      if k < |groups| {
        groups := groups[k := groups[k].(list := groups[k].list + [s])];
      } else {
        groups := groups + [Group(s.dimension, [s])];
      }
    }
    assert segments[..|segments|] == segments;
  }

  // ---------------------------------------------------------------------------------------
  // Block billing
  // ---------------------------------------------------------------------------------------

  /** The one time-based dimension that is quantised: parking whenever there is any. */
  function QuantisedTime(segments: seq<Segment>): Option<Dimension> {
    if OfDimension(segments, ParkingTime) != [] then Some(ParkingTime)
    else if OfDimension(segments, Time) != [] then Some(Time)
    else None
  }

  /** How many counted units one measured unit of `d` is. */
  function UnitScale(d: Dimension): nat {
    if d.Energy? then 1000 else 3600
  }

  predicate IsQuantised(d: Dimension, time: Option<Dimension>) {
    match d
    case Energy => true
    case Flat => false
    case _ => time == Some(d)
  }

  /** The quantity billed for a dimension: whole blocks of its last component, or as measured. */
  function BilledFor(q: Quantisation, d: Dimension, list: seq<Segment>, time: Option<Dimension>): real {
    var measured := SumBy(list, Quantity);
    if !IsQuantised(d, time) then measured
    else Apply(q, measured, if list == [] then 1 else list[|list| - 1].stepSize, UnitScale(d))
  }

  /** The list with `surplus` added to the quantity of its last segment. */
  function AddToLast(list: seq<Segment>, surplus: real): seq<Segment> {
    if list == [] then []
    else
      var last := list[|list| - 1];
      list[|list| - 1 := last.(priced := last.priced.(quantity := last.priced.quantity + surplus))]
  }

  /** The segments of a dimension as they are costed: only the last one is billed differently. */
  function Adjusted(q: Quantisation, d: Dimension, list: seq<Segment>, time: Option<Dimension>): seq<Segment> {
    AddToLast(list, BilledFor(q, d, list, time) - SumBy(list, Quantity))
  }

  /** The costed quantities of a dimension add up to what is billed, and only the last one changed. */
  lemma AdjustedSumsToBilled(q: Quantisation, d: Dimension, list: seq<Segment>, time: Option<Dimension>)
    requires list != []
    ensures var adjusted := Adjusted(q, d, list, time);
            && SumBy(adjusted, Quantity) == BilledFor(q, d, list, time)
            && |adjusted| == |list|
            && adjusted[..|list| - 1] == list[..|list| - 1]
            && adjusted[|list| - 1].stepSize == list[|list| - 1].stepSize
            && adjusted[|list| - 1].priced.price == list[|list| - 1].priced.price
  {
    hide Apply;
    var n := |list| - 1;
    SumUpdate(list, n, Adjusted(q, d, list, time)[n], Quantity);
  }

  /**
   * `step_size` is applied at most once to ENERGY and once to the two time dimensions together,
   * to PARKING_TIME whenever any such segment exists; a FLAT fee is never quantised.
   */
  lemma StepSizeOncePerSession(segments: seq<Segment>)
    ensures var time := QuantisedTime(segments);
            && !(IsQuantised(ParkingTime, time) && IsQuantised(Time, time))
            && !IsQuantised(Flat, time)
            && (ParkingTime in FirstSeen(segments, DimensionKey) <==> IsQuantised(ParkingTime, time))
            && (IsQuantised(Time, time)
                <==> Time in FirstSeen(segments, DimensionKey) && ParkingTime !in FirstSeen(segments, DimensionKey))
  {
    SeenExactly(segments, DimensionKey, ParkingTime);
    SeenExactly(segments, DimensionKey, Time);
  }

  // ---------------------------------------------------------------------------------------
  // Costing
  // ---------------------------------------------------------------------------------------

  /** An amount before tax and the tax on top of it. */
  datatype Split = Split(net: real, tax: real)

  /** `rate` percent of an amount. */
  function Percent(rate: real, amount: real): real {
    amount * rate / 100.0
  }

  /** Splits what a component states into what is owed before tax and the tax on top. */
  function SplitTax(policy: PricingPolicy, stated: real, rate: Option<real>, basis: TaxBasis): Split {
    match (basis, rate)
    case (NoTax, _) => Split(stated, 0.0)
    case (_, None) => Split(stated, 0.0)
    case (Included, Some(r)) =>
      var divisor := 1.0 + r / 100.0;
      if divisor == 0.0 then Split(stated, 0.0)
      else
        var net := policy.RoundComponent(stated / divisor);
        Split(net, stated - net)
    case (_, Some(r)) => Split(stated, policy.RoundComponent(Percent(r, stated)))
  }

  /** The note a segment's tax basis earns. */
  function SplitNote(rate: Option<real>, basis: TaxBasis): Option<NoteCode> {
    if basis.Included? && rate.None? then Some(TaxIncludedWithoutRate)
    else if basis.NoTax? && rate.Some? then Some(TaxRateIgnored)
    else None
  }

  /** Quantity times price. */
  function Charge(s: PricedSegment): real {
    s.quantity * s.price
  }

  /** What the price component states for a segment. */
  function Stated(policy: PricingPolicy, s: PricedSegment): real {
    policy.RoundComponent(Charge(s))
  }

  /** A segment with its cost and tax, and its quantity as reported. */
  function Costed(policy: PricingPolicy, s: Segment): PricedSegment {
    var p := s.priced;
    var split := SplitTax(policy, Stated(policy, p), p.vat, p.basis);
    p.(cost := split.net, tax := split.tax, quantity := policy.RoundQuantity(p.quantity))
  }

  function CostedAll(policy: PricingPolicy, list: seq<Segment>): seq<PricedSegment> {
    seq(|list|, i requires 0 <= i < |list| => Costed(policy, list[i]))
  }

  /** What one dimension of the session costs. */
  function DimensionOf(policy: PricingPolicy, g: Group, time: Option<Dimension>): DimensionCost {
    var costed := CostedAll(policy, Adjusted(policy.quantisation, g.dimension, g.list, time));
    DimensionCost(g.dimension,
                  policy.RoundQuantity(SumBy(g.list, Quantity)),
                  policy.RoundQuantity(BilledFor(policy.quantisation, g.dimension, g.list, time)),
                  policy.RoundComponent(SumBy(costed, Cost)),
                  policy.RoundComponent(SumBy(costed, Tax)),
                  costed)
  }

  /** What every dimension of the session costs, in order of first appearance. */
  function DimensionsOf(policy: PricingPolicy, segments: seq<Segment>): seq<DimensionCost> {
    var groups := Groups(segments);
    seq(|groups|, i requires 0 <= i < |groups| => DimensionOf(policy, groups[i], QuantisedTime(segments)))
  }

  function NoteSplits(notes: seq<Note>, list: seq<PricedSegment>): seq<Note> {
    if list == [] then notes
    else
      var n := |list| - 1;
      var before := NoteSplits(notes, list[..n]);
      match SplitNote(list[n].vat, list[n].basis)
      case None => before
      case Some(code) => NoteOnce(before, code)
  }

  /** Costs the segments of one dimension one by one, keeping running totals. */
  method CostDimension(policy: PricingPolicy, g: Group, time: Option<Dimension>, notes0: seq<Note>)
    returns (d: DimensionCost, notes: seq<Note>)
    ensures d == DimensionOf(policy, g, time)
    ensures notes == NoteSplits(notes0, d.segments)
  {
    hide Costed, NoteOnce, SplitNote, BilledFor;
    var measured := SumBy(g.list, Quantity);
    var billed := BilledFor(policy.quantisation, g.dimension, g.list, time);
    var list := g.list;
    if billed != measured && list != [] {
      var last := list[|list| - 1];
      list := list[|list| - 1 := last.(priced := last.priced.(quantity := last.priced.quantity + (billed - measured)))];
    }
    assert list == Adjusted(policy.quantisation, g.dimension, g.list, time) by {
      AddNothing(g.list);
    }
    ghost var all := CostedAll(policy, list);
    var (cost, vat, priced: seq<PricedSegment>) := (0.0, 0.0, []);
    notes := notes0;
    for i := 0 to |list|
      invariant priced == all[..i]
      invariant cost == SumBy(all[..i], Cost) && vat == SumBy(all[..i], Tax)
      invariant notes == NoteSplits(notes0, all[..i])
    {
      var p := Costed(policy, list[i]);
      SumPrefix(all, Cost, i);
      SumPrefix(all, Tax, i);
      assert all[..i + 1][..i] == all[..i];
      CostedKeepsTerms(policy, list[i]);
      var code := SplitNote(p.vat, p.basis);
      if code.Some? {
        notes := NoteOnce(notes, code.value);
      }
      cost, vat, priced := cost + p.cost, vat + p.tax, priced + [p];
    }
    assert all[..|list|] == all;
    d := DimensionCost(g.dimension, policy.RoundQuantity(measured), policy.RoundQuantity(billed),
                       policy.RoundComponent(cost), policy.RoundComponent(vat), priced);
  }

  lemma AddNothing(list: seq<Segment>)
    ensures AddToLast(list, 0.0) == list
  {
  }

  lemma CostedKeepsTerms(policy: PricingPolicy, s: Segment)
    ensures Costed(policy, s).vat == s.priced.vat && Costed(policy, s).basis == s.priced.basis
    ensures Costed(policy, s).price == s.priced.price && Costed(policy, s).applied == s.priced.applied
  {
  }

  /** Applies `step_size` once per session, then costs every segment of every dimension. */
  method QuantiseAndCost(policy: PricingPolicy, segments: seq<Segment>, notes0: seq<Note>)
    returns (dimensions: seq<DimensionCost>, notes: seq<Note>)
    ensures dimensions == DimensionsOf(policy, segments)
    ensures notes == NoteSplits(notes0, AllSegments(dimensions))
  {
    hide DimensionOf, Groups, QuantisedTime;
    var time := QuantisedTime(segments);
    var groups := GroupByDimension(segments);
    dimensions, notes := [], notes0;
    for i := 0 to |groups|
      invariant dimensions == DimensionsOf(policy, segments)[..i]
      invariant notes == NoteSplits(notes0, AllSegments(dimensions))
    {
      var d, notes' := CostDimension(policy, groups[i], time, notes);
      NoteSplitsConcat(notes0, AllSegments(dimensions), d.segments);
      assert (dimensions + [d])[..i] == dimensions;
      dimensions, notes := dimensions + [d], notes';
    }
  }

  lemma {:induction false} NoteSplitsConcat(notes: seq<Note>, a: seq<PricedSegment>, b: seq<PricedSegment>)
    ensures NoteSplits(notes, a + b) == NoteSplits(NoteSplits(notes, a), b)
  {
    hide NoteOnce, SplitNote;
    if b == [] {
      assert a + b == a;
    } else {
      assert (a + b)[..|a + b| - 1] == a + b[..|b| - 1];
      NoteSplitsConcat(notes, a, b[..|b| - 1]);
    }
  }

  // ---------------------------------------------------------------------------------------
  // What the split keeps
  // ---------------------------------------------------------------------------------------

  /** Net and tax of a tax-included amount are exactly the amount the component states. */
  lemma IncludedIsExact(policy: PricingPolicy, s: Segment)
    requires s.priced.basis.Included?
    ensures Gross(Costed(policy, s)) == Stated(policy, s.priced)
  {
  }

  /** Costs and taxes keep the component precision. */
  lemma SplitIsComponent(policy: PricingPolicy, stated: real, rate: Option<real>, basis: TaxBasis)
    requires IsComponent(policy, stated)
    ensures IsComponent(policy, SplitTax(policy, stated, rate, basis).net)
    ensures IsComponent(policy, SplitTax(policy, stated, rate, basis).tax)
  {
    hide IsComponent, PricingPolicy.RoundComponent;
    ZeroIsExact(policy);
    RoundedIsComponent(policy);
    if rate.Some? && 1.0 + rate.value / 100.0 != 0.0 {
      ComponentSum(policy, stated, policy.RoundComponent(stated / (1.0 + rate.value / 100.0)));
    }
  }

  lemma CostedIsComponent(policy: PricingPolicy, s: Segment)
    ensures IsComponent(policy, Costed(policy, s).cost) && IsComponent(policy, Costed(policy, s).tax)
  {
    hide IsComponent, PricingPolicy.RoundComponent, SplitTax;
    RoundedIsComponent(policy);
    SplitIsComponent(policy, Stated(policy, s.priced), s.priced.vat, s.priced.basis);
  }

  /** A dimension costs exactly what its segments cost: rounding the sum changes nothing. */
  lemma DimensionCostExact(policy: PricingPolicy, g: Group, time: Option<Dimension>)
    ensures var d := DimensionOf(policy, g, time);
            d.cost == SumBy(d.segments, Cost) && d.vat == SumBy(d.segments, Tax)
  {
    hide Round, OnGrid, Costed, BilledFor;
    var p := Pow10(policy.componentDecimals);
    var list := Adjusted(policy.quantisation, g.dimension, g.list, time);
    var costed := CostedAll(policy, list);
    forall x | x in costed
      ensures OnGrid(p, Cost(x)) && OnGrid(p, Tax(x))
    {
      var i :| 0 <= i < |costed| && costed[i] == x;
      CostedIsComponent(policy, list[i]);
    }
    SumOnGrid(costed, Cost, p);
    SumOnGrid(costed, Tax, p);
    ComponentIdentity(policy, SumBy(costed, Cost));
    ComponentIdentity(policy, SumBy(costed, Tax));
  }

  /** With a rate of zero or more, a tax-included amount of zero or more splits into two such amounts. */
  lemma IncludedNonNegative(policy: PricingPolicy, stated: real, rate: Option<real>)
    requires stated >= 0.0 && IsComponent(policy, stated)
    requires rate.Some? ==> rate.value >= 0.0
    ensures var split := SplitTax(policy, stated, rate, Included); split.net >= 0.0 && split.tax >= 0.0
  {
    hide IsComponent, PricingPolicy.RoundComponent;
    if rate.Some? {
      var divisor := 1.0 + rate.value / 100.0;
      DividedIsSmaller(stated, divisor);
      ZeroIsExact(policy);
      ComponentIdentity(policy, 0.0);
      ComponentIdentity(policy, stated);
      ComponentMonotone(policy, 0.0, stated / divisor);
      ComponentMonotone(policy, stated / divisor, stated);
    }
  }

  lemma DividedIsSmaller(x: real, d: real)
    requires x >= 0.0 && d >= 1.0
    ensures 0.0 <= x / d <= x
  {
    var q := x / d;
    DivOf(x, q, d);
    ScaleMonotone(0.0, q, d);
    var e := (d - 1.0) * q;
    assert e == x - q;
  }
}
