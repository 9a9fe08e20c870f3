/**
 * Sessions priced with tax included: what they cost is what their components state, as long as no
 * quantity is taken below zero. Over `price`, `quantise_and_cost` and `finish` of
 * `src/tariffs/engine.rs`.
 */
module Gross {
  import opened Wrappers
  import opened Decimals
  import opened Sums
  import opened Grouping
  import opened Policy
  import opened Tariffs
  import opened Input
  import opened Breakdown
  import opened Selection
  import opened Segments
  import opened Quantise
  import opened TaxLines
  import opened Finish
  import opened Price

  // ---------------------------------------------------------------------------------------
  // Sessions no component can make negative
  // ---------------------------------------------------------------------------------------

  /** The most block billing can take off a quantity: half a millionth of a counted unit. */
  function Unmeasured(q: Quantisation, d: Dimension): real {
    if q.NoQuantisation? then 0.0 else 0.0000005 / UnitScale(d) as real
  }

  /** A quantity that block billing cannot take below `-low`. */
  predicate StaysAbove(q: Quantisation, low: real, quantity: real, d: Dimension) {
    quantity + low >= Unmeasured(q, d)
  }

  /** A period of such quantities. */
  predicate NeverBelow(q: Quantisation, low: real, p: PricedPeriod) {
    forall c :: c in PeriodQuantities(p) ==> c.quantity == 0.0 || StaysAbove(q, low, c.quantity, c.dimension)
  }

  /** Prices and rates of zero or more, and, where `gross`, prices that include tax. */
  predicate PlainTerms(t: Tariff, gross: bool) {
    && (gross ==> t.taxIncluded.Yes?)
    && forall e :: e in t.elements ==> forall c :: c in e.components ==>
         c.price >= 0.0 && (c.vat.Some? ==> c.vat.value >= 0.0)
  }

  /** A segment priced on such terms. */
  predicate PlainSegment(s: Segment, gross: bool) {
    (gross ==> s.priced.basis.Included?) && s.priced.price >= 0.0 && (s.priced.vat.Some? ==> s.priced.vat.value >= 0.0)
  }

  lemma CollectedArePlain(q: Quantisation, low: real, session: PricedSession, tariffs: seq<Tariff>,
                          stretches: seq<Stretch>, gross: bool)
    requires Planned(session, tariffs, |session.periods|) == Ok(stretches) && low >= 0.0
    requires forall t :: t in tariffs ==> PlainTerms(t, gross)
    requires forall p :: p in session.periods ==> NeverBelow(q, low, p)
    ensures forall s :: s in Collect(stretches) ==>
              PlainSegment(s, gross) && StaysAbove(q, low, s.priced.quantity, s.dimension)
  {
    hide *;
    forall s | s in Collect(stretches)
      ensures PlainSegment(s, gross) && StaysAbove(q, low, s.priced.quantity, s.dimension)
    {
      AuditTrail(stretches, s);
      var i :| 0 <= i < |stretches| && PricedBy(stretches[i], s);
      PlannedMeaning(session, tariffs, |session.periods|);
      PlanInTariffs(session, tariffs, i);
      PricedPlainly(q, low, stretches[i], s, gross);
    }
  }

  /** A segment priced on plain terms over such a period is plain and stays above zero. */
  lemma PricedPlainly(q: Quantisation, low: real, stretch: Stretch, s: Segment, gross: bool)
    requires PricedBy(stretch, s) && low >= 0.0 && PlainTerms(stretch.plan.tariff, gross)
    requires NeverBelow(q, low, stretch.period)
    ensures PlainSegment(s, gross) && StaysAbove(q, low, s.priced.quantity, s.dimension)
  {
    hide PeriodQuantities;
    var (elements, at) := (stretch.plan.tariff.elements, s.priced.applied);
    assert elements[at.element] in elements;
    assert elements[at.element].components[at.index] in elements[at.element].components;
  }

  /** Block billing leaves the last quantity of a dimension at `-low` or more. */
  lemma AdjustedArePlain(q: Quantisation, low: real, d: Dimension, list: seq<Segment>, time: Option<Dimension>,
                         gross: bool)
    requires low >= 0.0
    requires forall s :: s in list ==>
               PlainSegment(s, gross) && s.dimension == d && StaysAbove(q, low, s.priced.quantity, d)
    ensures forall s :: s in Adjusted(q, d, list, time) ==> PlainSegment(s, gross) && s.priced.quantity >= -low
  {
    var step := if list == [] then 1 else list[|list| - 1].stepSize;
    ApplyNotBelow(q, SumBy(list, Quantity), step, UnitScale(d));
    if q.NoQuantisation? {
      AddNothing(list);
      assert Adjusted(q, d, list, time) == list;
    }
    hide Apply;
    forall s | s in Adjusted(q, d, list, time)
      ensures PlainSegment(s, gross) && s.priced.quantity >= -low
    {
      var i :| 0 <= i < |list| && s == Adjusted(q, d, list, time)[i];
      assert list[i] in list;
    }
  }

  lemma {:induction false} GroupsArePlain(q: Quantisation, low: real, groups: seq<Group>, time: Option<Dimension>,
                                          gross: bool)
    requires low >= 0.0
    requires forall g, s :: g in groups && s in g.list ==>
               PlainSegment(s, gross) && s.dimension == g.dimension
               && StaysAbove(q, low, s.priced.quantity, g.dimension)
    ensures forall s :: s in AllAdjusted(q, groups, time) ==> PlainSegment(s, gross) && s.priced.quantity >= -low
  {
    hide Adjusted, StaysAbove, PlainSegment;
    if groups == [] {
    } else {
      var n := |groups| - 1;
      GroupsArePlain(q, low, groups[..n], time, gross);
      assert groups[n] in groups;
      AdjustedArePlain(q, low, groups[n].dimension, groups[n].list, time, gross);
    }
  }

  lemma BilledArePlain(q: Quantisation, low: real, segments: seq<Segment>, gross: bool)
    requires low >= 0.0
    requires forall s :: s in segments ==> PlainSegment(s, gross) && StaysAbove(q, low, s.priced.quantity, s.dimension)
    ensures forall s :: s in BilledSegments(q, segments) ==> PlainSegment(s, gross) && s.priced.quantity >= -low
  {
    hide StaysAbove, PlainSegment, AllAdjusted;
    forall g, s | g in Groups(segments) && s in g.list
      ensures PlainSegment(s, gross) && s.dimension == g.dimension && StaysAbove(q, low, s.priced.quantity, g.dimension)
    {
      WithKeySound(segments, DimensionKey, g.dimension);
    }
    GroupsArePlain(q, low, Groups(segments), QuantisedTime(segments), gross);
  }

  lemma StatedNonNegative(policy: PricingPolicy, p: PricedSegment)
    requires Charge(p) >= 0.0
    ensures Stated(policy, p) >= 0.0 && IsComponent(policy, Stated(policy, p))
  {
    hide IsComponent, Charge;
    ZeroIsExact(policy);
    ComponentIdentity(policy, 0.0);
    ComponentMonotone(policy, 0.0, Charge(p));
    RoundedIsComponent(policy);
  }

  lemma GrossCosts(policy: PricingPolicy, s: Segment)
    requires PlainSegment(s, true) && s.priced.quantity >= 0.0
    ensures Costed(policy, s).cost >= 0.0 && Costed(policy, s).tax >= 0.0
  {
    hide IsComponent, Stated, SplitTax;
    NonNegativeProduct(s.priced.quantity, s.priced.price);
    StatedNonNegative(policy, s.priced);
    IncludedNonNegative(policy, Stated(policy, s.priced), s.priced.vat);
  }

  /** No tax and no cost is negative when every segment is plain. */
  lemma RawTotalsNonNegative(policy: PricingPolicy, segments: seq<Segment>)
    requires forall s :: s in BilledSegments(policy.quantisation, segments) ==>
               PlainSegment(s, true) && s.priced.quantity >= 0.0
    ensures RawExcl(DimensionsOf(policy, segments)) >= 0.0 && RawVat(DimensionsOf(policy, segments)) >= 0.0
  {
    hide PlainSegment, DimensionsOf, BilledSegments, Costed;
    var billed := BilledSegments(policy.quantisation, segments);
    var costed := AllSegments(DimensionsOf(policy, segments));
    CostedSegments(policy, segments);
    RawExclIsCost(policy, segments);
    forall x | x in costed
      ensures Cost(x) >= 0.0 && Tax(x) >= 0.0
    {
      var i :| 0 <= i < |costed| && costed[i] == x;
      GrossCosts(policy, billed[i]);
    }
    SumNonNegative(costed, Cost);
    SumNonNegative(costed, Tax);
  }

  /** What the components of a session state, added up and rounded. */
  function StatedTotal(policy: PricingPolicy, session: PricedSession, tariffs: seq<Tariff>): real
    requires Planned(session, tariffs, |session.periods|).Ok?
  {
    var segments := Collect(Planned(session, tariffs, |session.periods|).value);
    policy.RoundCurrency(SumBy(BilledSegments(policy.quantisation, segments), StatedBy(policy)))
  }

  /**
   * A session priced by tax-included tariffs with prices and rates of zero or more and no price
   * limit costs, tax included, exactly the rounded sum of what the components state, when no
   * quantity can be taken below zero: always, where the policy does not quantise.
   */
  lemma GrossSessionConserved(policy: PricingPolicy, session: PricedSession, tariffs: seq<Tariff>)
    requires Priced(policy, session, tariffs).Ok?
    requires forall t :: t in tariffs ==> PlainTerms(t, true) && t.minPrice.None? && t.maxPrice.None?
    requires forall p :: p in session.periods ==> NeverBelow(policy.quantisation, 0.0, p)
    ensures Priced(policy, session, tariffs).value.totalInclVat == StatedTotal(policy, session, tariffs)
  {
    hide CheckRange, Planned, Collect, CollectNotes, OrderNotes, Finished, DimensionsOf, NoteSplits,
         PlainTerms, NeverBelow, StaysAbove, BilledSegments, PricingPolicy.RoundCurrency;
    var stretches := Planned(session, tariffs, |session.periods|).value;
    var tariff := SelectByPreference(Wanted(session), session.start, tariffs).value;
    var segments := Collect(stretches);
    var dimensions := DimensionsOf(policy, segments);
    var notes := NoteSplits(OrderNotes(session) + CollectNotes(stretches), AllSegments(dimensions));
    CollectedArePlain(policy.quantisation, 0.0, session, tariffs, stretches, true);
    BilledArePlain(policy.quantisation, 0.0, segments, true);
    RawTotalsNonNegative(policy, segments);
    RawTotalIsStated(policy, segments);
    CurrencyMonotone(policy, RawExcl(dimensions), RawExcl(dimensions) + RawVat(dimensions));
    GrossConserved(policy, segments, tariff, notes);
  }

  // ---------------------------------------------------------------------------------------
  // A session that costs more than its components state
  // ---------------------------------------------------------------------------------------

  /** A trillion a kilowatt-hour, tax included. */
  function DearTariff(id: string, rate: real): Tariff {
    Tariff(id, None, None, None, [TariffElement([PriceComponent(Energy, MAX_MAGNITUDE, Some(rate), 1)], None)],
           Yes, None, None)
  }

  /** A ten-millionth of a watt-hour. */
  const TINY := 0.0000000001

  function TinyPeriod(start: DateTime, id: string): PricedPeriod {
    PricedPeriod(start, TINY, 0.0, 0.0, 0.0, None, None, None, None, Some(id))
  }

  /** Two such quantities, under a tariff each. */
  function TinySession(): PricedSession {
    PricedSession(0, None, [TinyPeriod(0, "A"), TinyPeriod(1, "B")],
                  (t: DateTime) => Some(LocalParts(0, 0, Monday)), None, false, false)
  }

  /** The same price at two rates. */
  function TinyTariffs(): seq<Tariff> {
    [DearTariff("A", 0.0), DearTariff("B", 100.0)]
  }

  /** The segment of a tiny quantity at a rate. */
  predicate TinySegment(s: Segment, rate: real) {
    && s.dimension == Energy && s.stepSize == 1 && s.priced.quantity == TINY && s.priced.price == MAX_MAGNITUDE
    && s.priced.vat == Some(rate) && s.priced.basis.Included?
  }

  lemma TinyPlanned() returns (a: Stretch, b: Stretch)
    ensures Planned(TinySession(), TinyTariffs(), 2) == Ok([a, b])
    ensures a.period == TinyPeriod(0, "A") && a.plan.tariff == DearTariff("A", 0.0)
    ensures b.period == TinyPeriod(1, "B") && b.plan.tariff == DearTariff("B", 100.0)
  {
    var (session, tariffs) := (TinySession(), TinyTariffs());
    assert EqIgnoreCase("A", "A") && EqIgnoreCase("B", "B");
    assert !EqIgnoreCase("A", "B") by {
      assert LowerChar("A"[0]) != LowerChar("B"[0]);
    }
    assert SelectTariff(session, session.periods[0], tariffs) == Ok(tariffs[0]);
    assert SelectTariff(session, session.periods[1], tariffs) == Ok(tariffs[1]);
    hide SelectTariff, FirstWhere;
    a := Stretch(PlanOf(session, tariffs, 0).value, session.periods[0]);
    b := Stretch(PlanOf(session, tariffs, 1).value, session.periods[1]);
    assert Planned(session, tariffs, 0) == Ok([]);
    assert [] + [a] == [a];
    assert Planned(session, tariffs, 1) == Ok([a]);
    assert [a] + [b] == [a, b];
  }

  lemma TinyCollected() returns (a: Segment, b: Segment)
    ensures Planned(TinySession(), TinyTariffs(), 2).Ok?
    ensures Collect(Planned(TinySession(), TinyTariffs(), 2).value) == [a, b]
    ensures TinySegment(a, 0.0) && TinySegment(b, 100.0)
  {
    var first, second := TinyPlanned();
    a := OnlyEnergy(first, PriceComponent(Energy, MAX_MAGNITUDE, Some(0.0), 1));
    b := OnlyEnergy(second, PriceComponent(Energy, MAX_MAGNITUDE, Some(100.0), 1));
    hide Planned, Collect, Stretch.Quantities, Stretch.FlatFee, TinySession, TinyTariffs;
    TwoStretches(first, second, a, b);
  }

  lemma TwoStretches(first: Stretch, second: Stretch, a: Segment, b: Segment)
    requires first.Quantities() == [a] && first.FlatFee().None?
    requires second.Quantities() == [b] && second.FlatFee().None?
    ensures Collect([first, second]) == [a, b]
  {
    hide Stretch.Quantities, Stretch.FlatFee;
    assert [first, second][..1] == [first] && [first][..0] == [] && Collect([first][..0]) == [];
    assert [] + [a] + [] == [a];
    assert Collect([first]) == [a];
    assert [a] + [b] + [] == [a, b];
  }

  /** Two quantities of a ten-millionth of a watt-hour are billed as nothing, so the last is taken below zero. */
  lemma TinyQuantitiesGoBelowZero(a: Segment, b: Segment, time: Option<Dimension>)
    requires a.priced.quantity == b.priced.quantity == TINY && b.stepSize == 1
    ensures !StaysAbove(StepSize, 0.0, TINY, Energy)
    ensures Adjusted(StepSize, Energy, [a, b], time) == [a, b.(priced := b.priced.(quantity := -TINY))]
  {
    var list := [a, b];
    assert list[..1] == [a] && [a][..0] == [];
    assert SumBy(list[..1], Quantity) == TINY;
    assert SumBy(list, Quantity) == 0.0000000002;
    ReadExactly(0.0000000002, 0, 1000);
    assert Blocks(0.0, 1) == 0;
    hide InUnits, Blocks, SumBy;
  }

  lemma TinyBilled(a: Segment, b: Segment)
    requires TinySegment(a, 0.0) && TinySegment(b, 100.0)
    ensures BilledSegments(StepSize, [a, b]) == [a, b.(priced := b.priced.(quantity := -TINY))]
  {
    hide Adjusted, Groups, QuantisedTime;
    var g := Group(Energy, [a, b]);
    SingleGroup(a);
    GroupsStep([a], b, 0);
    assert [a] + [b] == [a, b] && Groups([a, b]) == [g];
    TinyQuantitiesGoBelowZero(a, b, QuantisedTime([a, b]));
    assert [g][..0] == [];
    var billed := Adjusted(StepSize, Energy, [a, b], QuantisedTime([a, b]));
    assert AllAdjusted(StepSize, [g], QuantisedTime([a, b])) == [] + billed;
  }

  lemma WholeComponent(n: int)
    ensures IsComponent(DEFAULT, n as real)
  {
    assert Pow10(4) == 10000.0;
    WholeAt(n as real * 10000.0, n * 10000);
  }

  /** 100 and -100, of which half is tax. */
  lemma TinyCosts(a: Segment, b: Segment)
    requires TinySegment(a, 0.0) && TinySegment(b.(priced := b.priced.(quantity := TINY)), 100.0)
    requires b.priced.quantity == -TINY
    ensures Stated(DEFAULT, a.priced) == 100.0 && Stated(DEFAULT, b.priced) == -100.0
    ensures Costed(DEFAULT, a).cost == 100.0 && Costed(DEFAULT, a).tax == 0.0
    ensures Costed(DEFAULT, b).cost == -50.0 && Costed(DEFAULT, b).tax == -50.0
  {
    hide PricingPolicy.RoundComponent, PricingPolicy.RoundQuantity, IsComponent;
    assert Charge(a.priced) == 100.0 && Charge(b.priced) == -100.0;
    WholeComponent(100);
    WholeComponent(-100);
    WholeComponent(-50);
    ComponentIdentity(DEFAULT, 100.0);
    ComponentIdentity(DEFAULT, -100.0);
    ComponentIdentity(DEFAULT, -50.0);
    assert 100.0 / (1.0 + 0.0 / 100.0) == 100.0 && -100.0 / (1.0 + 100.0 / 100.0) == -50.0;
  }

  /** What the two segments come to: 50 before tax, -50 of tax, and nothing stated. */
  lemma TinyTotals() returns (segments: seq<Segment>)
    ensures Planned(TinySession(), TinyTariffs(), 2).Ok?
    ensures segments == Collect(Planned(TinySession(), TinyTariffs(), 2).value)
    ensures RawExcl(DimensionsOf(DEFAULT, segments)) == 50.0 && RawVat(DimensionsOf(DEFAULT, segments)) == -50.0
    ensures SumBy(BilledSegments(StepSize, segments), StatedBy(DEFAULT)) == 0.0
  {
    hide Planned, Collect, TinySession, TinyTariffs, TinySegment, DimensionsOf, BilledSegments, Costed, Stated;
    var a, b := TinyCollected();
    segments := [a, b];
    TinyBilled(a, b);
    var b' := b.(priced := b.priced.(quantity := -TINY));
    assert TinySegment(b'.(priced := b'.priced.(quantity := TINY)), 100.0) by {
      BackAgain(b);
    }
    TinyCosts(a, b');
    CostedSegments(DEFAULT, segments);
    RawExclIsCost(DEFAULT, segments);
    SumOfTwo(Costed(DEFAULT, a), Costed(DEFAULT, b'), Cost);
    SumOfTwo(Costed(DEFAULT, a), Costed(DEFAULT, b'), Tax);
    SumOfTwo(a, b', StatedBy(DEFAULT));
    assert CostedAll(DEFAULT, [a, b']) == [Costed(DEFAULT, a), Costed(DEFAULT, b')];
  }

  lemma BackAgain(b: Segment)
    requires TinySegment(b, 100.0)
    ensures b.(priced := b.priced.(quantity := TINY)) == b
  {
  }

  lemma SumOfTwo<T>(x: T, y: T, f: T -> real)
    ensures SumBy([x, y], f) == f(x) + f(y)
  {
    assert [x, y] == [x] + [y];
    SumOne(x, f);
    SumAppend([x], y, f);
  }

  /**
   * Where quantities are taken below zero, tax-included amounts are not conserved: the components
   * of a session with prices, rates and quantities of zero or more state nothing, of which 50 is
   * before tax and -50 is tax, and the total that is published is held at 50.
   */
  lemma GrossSessionNotConserved()
    ensures forall t :: t in TinyTariffs() ==> PlainTerms(t, true) && t.minPrice.None? && t.maxPrice.None?
    ensures forall p, c :: p in TinySession().periods && c in PeriodQuantities(p) ==> c.quantity >= 0.0
    ensures Priced(DEFAULT, TinySession(), TinyTariffs()).Ok?
    ensures Priced(DEFAULT, TinySession(), TinyTariffs()).value.totalInclVat == 50.0
    ensures Planned(TinySession(), TinyTariffs(), 2).Ok? && StatedTotal(DEFAULT, TinySession(), TinyTariffs()) == 0.0
  {
    hide *;
    TinyIsPlain();
    TinyIsAccepted();
    TinyIsPriced();
  }

  lemma TinyIsPlain()
    ensures forall t :: t in TinyTariffs() ==> PlainTerms(t, true) && t.minPrice.None? && t.maxPrice.None?
    ensures forall p, c :: p in TinySession().periods && c in PeriodQuantities(p) ==> c.quantity >= 0.0
  {
    DearIsPlain("A", 0.0);
    DearIsPlain("B", 100.0);
    hide PlainTerms, DearTariff;
  }

  lemma DearIsPlain(id: string, rate: real)
    requires 0.0 <= rate <= 100.0
    ensures var t := DearTariff(id, rate);
            PlainTerms(t, true) && t.minPrice.None? && t.maxPrice.None? && PriceableTariff(t)
  {
  }

  lemma TinyIsAccepted()
    ensures CheckRange(TinySession(), TinyTariffs())
  {
    DearIsPlain("A", 0.0);
    DearIsPlain("B", 100.0);
    hide PriceableTariff, DearTariff;
  }

  lemma TinyIsPriced()
    requires CheckRange(TinySession(), TinyTariffs())
    ensures Priced(DEFAULT, TinySession(), TinyTariffs()).Ok?
    ensures Priced(DEFAULT, TinySession(), TinyTariffs()).value.totalInclVat == 50.0
    ensures Planned(TinySession(), TinyTariffs(), 2).Ok? && StatedTotal(DEFAULT, TinySession(), TinyTariffs()) == 0.0
  {
    hide Planned, Collect, CollectNotes, OrderNotes, DimensionsOf, NoteSplits, CheckRange, SelectByPreference,
         BilledSegments, Finished, PricingPolicy.RoundCurrency, TinySession, TinyTariffs;
    var segments := TinyTotals();
    var tariff := TinyLimits();
    HeldAtFifty(tariff, DimensionsOf(DEFAULT, segments));
    WholeEuros(0);
  }

  lemma TinyLimits() returns (tariff: Tariff)
    ensures var session := TinySession();
            SelectByPreference(Wanted(session), session.start, TinyTariffs()) == Ok(tariff)
    ensures tariff.minPrice.None? && tariff.maxPrice.None? && TinyTariffs() != []
    ensures |TinySession().periods| == 2
  {
    assert TinyTariffs()[0].IsActiveAt(0);
    hide SelectByPreference;
    tariff := SelectByPreference(Wanted(TinySession()), 0, TinyTariffs()).value;
  }

  lemma HeldAtFifty(tariff: Tariff, dimensions: seq<DimensionCost>)
    requires tariff.minPrice.None? && tariff.maxPrice.None?
    requires RawExcl(dimensions) == 50.0 && RawVat(dimensions) == -50.0
    ensures forall notes :: Finished(DEFAULT, dimensions, tariff, notes).totalInclVat == 50.0
  {
    hide Presented, FinishNotes, SummariseBasis, RawExcl, RawVat, PricingPolicy.RoundCurrency;
    WholeEuros(50);
    WholeEuros(0);
  }
}
