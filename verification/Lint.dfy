/**
 * The static claims the linter makes about a tariff, and what the engine owes them.
 * Models `src/tariffs/lint.rs`.
 */
module Lint {
  import opened Wrappers
  import opened Tariffs
  import opened Input
  import opened Lookup
  import opened Segments
  import Finish
  import Policy

  datatype LintCode =
    | UnreachableElement
    | DuplicateDimension
    | EmptyRestrictions
    | ImpossibleRestriction
    | WholeDayWindow
    | ZeroStepSize
    | FlatStepSize
    | UnusedTimeStepSize
    | ReservationDimension
    | NothingPricedByUse
    | TaxRateWithoutTax
    | TaxIncludedWithoutRate
    | ImplausibleVat
    | PriceLimitsCross
    | NeverActive

  /** The part of a tariff a finding is about. */
  datatype Place =
    | Whole(field: string)
    | Element(e: nat, field: string)
    | Component(e: nat, c: nat, field: string)

  datatype Finding = Finding(code: LintCode, place: Place)

  function If(condition: bool, code: LintCode, place: Place): seq<Finding> {
    if condition then [Finding(code, place)] else []
  }

  predicate PricesIn(components: seq<PriceComponent>, d: Dimension, n: nat)
    requires n <= |components|
  {
    exists k :: 0 <= k < n && components[k].dimension == d
  }

  predicate Unrestricted(element: TariffElement) {
    element.restrictions.None? || element.restrictions.value == UNRESTRICTED
  }

  /** One of the first `n` elements is unrestricted and prices `d`. */
  predicate Claimed(elements: seq<TariffElement>, n: nat, d: Dimension)
    requires n <= |elements|
  {
    exists k :: 0 <= k < n && Unrestricted(elements[k]) && PricesIn(elements[k].components, d, |elements[k].components|)
  }

  predicate PricesAnywhere(tariff: Tariff, d: Dimension) {
    exists k :: 0 <= k < |tariff.elements|
                && PricesIn(tariff.elements[k].components, d, |tariff.elements[k].components|)
  }

  predicate NamesARate(tariff: Tariff) {
    exists k, c :: 0 <= k < |tariff.elements| && 0 <= c < |tariff.elements[k].components|
                   && tariff.elements[k].components[c].vat.Some?
  }

  /** What is wrong with the `step_size` of a component. */
  function StepFindings(tariff: Tariff, e: nat, c: nat, component: PriceComponent): seq<Finding> {
    var at := Component(e, c, "step_size");
    if component.dimension.Flat? then If(component.stepSize > 1, FlatStepSize, at)
    else if component.stepSize == 0 then [Finding(ZeroStepSize, at)]
    else If(component.dimension.Time? && PricesAnywhere(tariff, ParkingTime) && component.stepSize > 1,
            UnusedTimeStepSize, at)
  }

  /** What is wrong with the rate of a component. */
  function VatFindings(tariff: Tariff, e: nat, c: nat, component: PriceComponent): seq<Finding> {
    if component.vat.None? then []
    else If(component.vat.value < 0.0 || component.vat.value > 100.0, ImplausibleVat, Component(e, c, "vat"))
         + If(tariff.taxIncluded.NotApplicable?, TaxRateWithoutTax, Component(e, c, "vat"))
  }

  function ComponentFindings(tariff: Tariff, e: nat, c: nat): seq<Finding>
    requires e < |tariff.elements| && c < |tariff.elements[e].components|
  {
    var components := tariff.elements[e].components;
    If(PricesIn(components, components[c].dimension, c), DuplicateDimension, Component(e, c, ""))
    + If(Claimed(tariff.elements, e, components[c].dimension), UnreachableElement, Component(e, c, ""))
    + StepFindings(tariff, e, c, components[c])
    + VatFindings(tariff, e, c, components[c])
  }

  predicate Crossed(min: Option<real>, max: Option<real>) {
    min.Some? && max.Some? && min.value >= max.value
  }

  predicate CrossedDuration(min: Option<nat>, max: Option<nat>) {
    min.Some? && max.Some? && min.value >= max.value
  }

  predicate CrossedDate(start: Option<int>, end: Option<int>) {
    start.Some? && end.Some? && end.value <= start.value
  }

  function BoundFindings(r: Restrictions, e: nat): seq<Finding> {
    If(Crossed(r.minKwh, r.maxKwh), ImpossibleRestriction, Element(e, "min_kwh"))
    + If(Crossed(r.minPower, r.maxPower), ImpossibleRestriction, Element(e, "min_power"))
    + If(Crossed(r.minCurrent, r.maxCurrent), ImpossibleRestriction, Element(e, "min_current"))
    + If(CrossedDuration(r.minDuration, r.maxDuration), ImpossibleRestriction, Element(e, "min_duration"))
    + If(CrossedDate(r.startDate, r.endDate), ImpossibleRestriction, Element(e, "start_date"))
    + If(r.startTime.Some? && r.startTime == r.endTime, WholeDayWindow, Element(e, "start_time"))
  }

  /** The components among the first `n` that a reservation cannot have. */
  function ReservationFindings(element: TariffElement, e: nat, n: nat): seq<Finding>
    requires n <= |element.components|
  {
    if n == 0 || ReservationOf(element).None? then []
    else
      var d := element.components[n - 1].dimension;
      ReservationFindings(element, e, n - 1)
      + If(!d.Flat? && !d.Time?, ReservationDimension, Component(e, n - 1, ""))
  }

  function RestrictionFindings(element: TariffElement, e: nat): seq<Finding> {
    if element.restrictions.None? then []
    else if element.restrictions.value == UNRESTRICTED then [Finding(EmptyRestrictions, Element(e, ""))]
    else BoundFindings(element.restrictions.value, e) + ReservationFindings(element, e, |element.components|)
  }

  function ComponentsFindings(tariff: Tariff, e: nat, n: nat): seq<Finding>
    requires e < |tariff.elements| && n <= |tariff.elements[e].components|
  {
    if n == 0 then [] else ComponentsFindings(tariff, e, n - 1) + ComponentFindings(tariff, e, n - 1)
  }

  /** The findings about the first `n` elements. */
  function ElementsFindings(tariff: Tariff, n: nat): seq<Finding>
    requires n <= |tariff.elements|
  {
    if n == 0 then []
    else ElementsFindings(tariff, n - 1)
         + ComponentsFindings(tariff, n - 1, |tariff.elements[n - 1].components|)
         + RestrictionFindings(tariff.elements[n - 1], n - 1)
  }

  function TariffFindings(tariff: Tariff): seq<Finding> {
    var (min, max) := (tariff.minPrice, tariff.maxPrice);
    If(!PricesAnywhere(tariff, Energy) && !PricesAnywhere(tariff, Time), NothingPricedByUse, Whole("elements"))
    + If(tariff.taxIncluded.Yes? && !NamesARate(tariff), TaxIncludedWithoutRate, Whole("tax_included"))
    + If(min.Some? && max.Some? && min.value.beforeTaxes > max.value.beforeTaxes, PriceLimitsCross,
         Whole("min_price/before_taxes"))
    + If(min.Some? && max.Some? && min.value.afterTaxes.Some? && max.value.afterTaxes.Some?
         && min.value.afterTaxes.value > max.value.afterTaxes.value, PriceLimitsCross, Whole("min_price/after_taxes"))
    + If(tariff.start.Some? && tariff.end.Some? && tariff.end.value <= tariff.start.value, NeverActive,
         Whole("end_date_time"))
  }

  /** Every finding about `tariff`, in document order. */
  function Findings(tariff: Tariff): seq<Finding> {
    ElementsFindings(tariff, |tariff.elements|) + TariffFindings(tariff)
  }

  // ---------------------------------------------------------------------------------------
  // The linter
  // ---------------------------------------------------------------------------------------

  /** Walks the components of one element, remembering the dimensions it has seen. */
  method LintComponents(tariff: Tariff, e: nat, claimed: seq<Dimension>, out0: seq<Finding>)
    returns (out: seq<Finding>, seen: seq<Dimension>)
    requires e < |tariff.elements|
    requires forall d :: d in claimed <==> Claimed(tariff.elements, e, d)
    ensures out == out0 + ComponentsFindings(tariff, e, |tariff.elements[e].components|)
    ensures var components := tariff.elements[e].components;
            forall d :: d in seen <==> PricesIn(components, d, |components|)
  {
    hide Claimed, StepFindings, VatFindings, PricesIn;
    var components := tariff.elements[e].components;
    NothingPriced(components);
    out, seen := out0, [];
    for c := 0 to |components|
      invariant out == out0 + ComponentsFindings(tariff, e, c)
      invariant forall d :: d in seen <==> PricesIn(components, d, c)
    {
      var d := components[c].dimension;
      ghost var out1 := out;
      PricesInStep(components, c);
      if d in seen {
        out := out + [Finding(DuplicateDimension, Component(e, c, ""))];
      } else {
        seen := seen + [d];
      }
      if d in claimed {
        out := out + [Finding(UnreachableElement, Component(e, c, ""))];
      }
      out := out + StepFindings(tariff, e, c, components[c]) + VatFindings(tariff, e, c, components[c]);
      assert out == out1 + ComponentFindings(tariff, e, c);
    }
  }

  lemma NothingPriced(components: seq<PriceComponent>)
    ensures forall d :: !PricesIn(components, d, 0)
  {
  }

  lemma PricesInStep(components: seq<PriceComponent>, c: nat)
    requires c < |components|
    ensures forall d :: PricesIn(components, d, c + 1) <==> PricesIn(components, d, c) || components[c].dimension == d
  {
    forall d
      ensures PricesIn(components, d, c + 1) <==> PricesIn(components, d, c) || components[c].dimension == d
    {
      if PricesIn(components, d, c) {
        var k :| 0 <= k < c && components[k].dimension == d;
        assert components[k].dimension == d;
      }
      if components[c].dimension == d {
        assert 0 <= c < c + 1;
      }
    }
  }

  /** Looks at the restrictions of one element, and at what a reservation element prices. */
  method LintRestrictions(element: TariffElement, e: nat, out0: seq<Finding>) returns (out: seq<Finding>)
    ensures out == out0 + RestrictionFindings(element, e)
  {
    hide BoundFindings;
    out := out0;
    if element.restrictions.None? {
      return;
    }
    var r := element.restrictions.value;
    if r == UNRESTRICTED {
      return out + [Finding(EmptyRestrictions, Element(e, ""))];
    }
    out := out + BoundFindings(r, e);
    if r.reservation.Some? {
      for c := 0 to |element.components|
        invariant out == out0 + BoundFindings(r, e) + ReservationFindings(element, e, c)
      {
        var d := element.components[c].dimension;
        if !d.Flat? && !d.Time? {
          out := out + [Finding(ReservationDimension, Component(e, c, ""))];
        }
      }
    }
    assert out == out0 + (BoundFindings(r, e) + ReservationFindings(element, e, |element.components|));
  }

  /** Walks the tariff, remembering which dimensions an unrestricted element has claimed. */
  method LintTariff(tariff: Tariff) returns (out: seq<Finding>)
    ensures out == Findings(tariff)
  {
    hide ComponentsFindings, RestrictionFindings, TariffFindings, Unrestricted, PricesIn;
    var claimed: seq<Dimension>;
    out, claimed := [], [];
    NothingClaimed(tariff.elements);
    for e := 0 to |tariff.elements|
      invariant out == ElementsFindings(tariff, e)
      invariant forall d :: d in claimed <==> Claimed(tariff.elements, e, d)
    {
      var element := tariff.elements[e];
      var seen;
      out, seen := LintComponents(tariff, e, claimed, out);
      out := LintRestrictions(element, e, out);
      ClaimedStep(tariff.elements, e);
      if Unrestricted(element) {
        for k := 0 to |seen|
          invariant forall d :: d in claimed <==> Claimed(tariff.elements, e, d) || d in seen[..k]
        {
          assert seen[..k + 1] == seen[..k] + [seen[k]];
          if seen[k] !in claimed {
            claimed := claimed + [seen[k]];
          }
        }
        assert seen[..|seen|] == seen;
      }
    }
    out := out + TariffFindings(tariff);
  }

  lemma NothingClaimed(elements: seq<TariffElement>)
    ensures forall d :: !Claimed(elements, 0, d)
  {
  }

  lemma ClaimedStep(elements: seq<TariffElement>, e: nat)
    requires e < |elements|
    ensures forall d ::
              Claimed(elements, e + 1, d)
              <==> (Claimed(elements, e, d)
                    || (Unrestricted(elements[e]) && PricesIn(elements[e].components, d, |elements[e].components|)))
  {
    hide Unrestricted, PricesIn;
  }

  // ---------------------------------------------------------------------------------------
  // What a finding means
  // ---------------------------------------------------------------------------------------

  lemma {:induction false} ComponentsMember(tariff: Tariff, e: nat, n: nat, f: Finding)
    requires e < |tariff.elements| && n <= |tariff.elements[e].components|
    ensures f in ComponentsFindings(tariff, e, n) <==>
            f.place.Component? && f.place.e == e && f.place.c < n && f in ComponentFindings(tariff, e, f.place.c)
  {
    hide ComponentFindings;
    if n == 0 {
    } else {
      ComponentsMember(tariff, e, n - 1, f);
      if f in ComponentFindings(tariff, e, n - 1) {
        ComponentPlaces(tariff, e, n - 1, f);
      }
    }
  }

  lemma ComponentPlaces(tariff: Tariff, e: nat, c: nat, f: Finding)
    requires e < |tariff.elements| && c < |tariff.elements[e].components|
    requires f in ComponentFindings(tariff, e, c)
    ensures f.place.Component? && f.place.e == e && f.place.c == c
  {
    hide PricesIn, Claimed, PricesAnywhere;
  }

  lemma {:induction false} ReservationMember(element: TariffElement, e: nat, n: nat, f: Finding)
    requires n <= |element.components|
    ensures f in ReservationFindings(element, e, n) <==>
            exists c :: 0 <= c < n && f == Finding(ReservationDimension, Component(e, c, ""))
                        && ReservationDimensionFlagged(element, c)
  {
    if n == 0 {
    } else {
      ReservationMember(element, e, n - 1, f);
    }
  }

  /** A reservation element prices a dimension a reservation cannot have. */
  predicate ReservationDimensionFlagged(element: TariffElement, c: nat)
    requires c < |element.components|
  {
    ReservationOf(element).Some? && !element.components[c].dimension.Flat? && !element.components[c].dimension.Time?
  }

  lemma RestrictionPlaces(element: TariffElement, e: nat, f: Finding)
    requires f in RestrictionFindings(element, e)
    ensures !f.place.Whole? && f.place.e == e
  {
    ReservationMember(element, e, |element.components|, f);
  }

  lemma {:induction false} ElementsMember(tariff: Tariff, n: nat, f: Finding)
    requires n <= |tariff.elements| && !f.place.Whole?
    ensures f in ElementsFindings(tariff, n) <==>
            && f.place.e < n
            && (f in ComponentsFindings(tariff, f.place.e, |tariff.elements[f.place.e].components|)
                || f in RestrictionFindings(tariff.elements[f.place.e], f.place.e))
  {
    hide ComponentFindings, RestrictionFindings;
    if n == 0 {
    } else {
      ElementsMember(tariff, n - 1, f);
      var element := tariff.elements[n - 1];
      ComponentsMember(tariff, n - 1, |element.components|, f);
      if f in RestrictionFindings(element, n - 1) {
        RestrictionPlaces(element, n - 1, f);
      }
    }
  }

  /** The findings about element `e` are those its components and restrictions earn. */
  lemma FindingsOfElement(tariff: Tariff, f: Finding)
    requires !f.place.Whole? && f.place.e < |tariff.elements|
    ensures var (e, element) := (f.place.e, tariff.elements[f.place.e]);
            f in Findings(tariff) <==>
            || (f.place.Component? && f.place.c < |element.components| && f in ComponentFindings(tariff, e, f.place.c))
            || f in RestrictionFindings(element, e)
  {
    hide ComponentFindings, RestrictionFindings;
    ElementsMember(tariff, |tariff.elements|, f);
    ComponentsMember(tariff, f.place.e, |tariff.elements[f.place.e].components|, f);
  }

  /** Exactly which components and restrictions the four findings the engine answers to are about. */
  lemma MeaningOfFindings(tariff: Tariff, e: nat, c: nat)
    requires e < |tariff.elements| && c < |tariff.elements[e].components|
    ensures var (element, d) := (tariff.elements[e], tariff.elements[e].components[c].dimension);
            && (Finding(DuplicateDimension, Component(e, c, "")) in Findings(tariff)
                <==> PricesIn(element.components, d, c))
            && (Finding(UnreachableElement, Component(e, c, "")) in Findings(tariff)
                <==> Claimed(tariff.elements, e, d))
            && (Finding(ReservationDimension, Component(e, c, "")) in Findings(tariff)
                <==> ReservationDimensionFlagged(element, c))
  {
    hide Findings, Claimed, PricesIn;
    var element := tariff.elements[e];
    forall code | code in [DuplicateDimension, UnreachableElement, ReservationDimension]
      ensures var f := Finding(code, Component(e, c, ""));
              f in Findings(tariff) <==> f in ComponentFindings(tariff, e, c) || f in RestrictionFindings(element, e)
    {
      FindingsOfElement(tariff, Finding(code, Component(e, c, "")));
    }
    assert DuplicateDimension in [DuplicateDimension, UnreachableElement, ReservationDimension];
    assert UnreachableElement in [DuplicateDimension, UnreachableElement, ReservationDimension];
    assert ReservationDimension in [DuplicateDimension, UnreachableElement, ReservationDimension];
    NotFromRestrictions(element, e, c);
    NotFromStepOrVat(tariff, e, c);
  }

  lemma NotFromRestrictions(element: TariffElement, e: nat, c: nat)
    requires c < |element.components|
    ensures Finding(DuplicateDimension, Component(e, c, "")) !in RestrictionFindings(element, e)
    ensures Finding(UnreachableElement, Component(e, c, "")) !in RestrictionFindings(element, e)
    ensures Finding(ReservationDimension, Component(e, c, "")) in RestrictionFindings(element, e)
            <==> ReservationDimensionFlagged(element, c)
  {
    hide ReservationFindings;
    ReservationMember(element, e, |element.components|, Finding(DuplicateDimension, Component(e, c, "")));
    ReservationMember(element, e, |element.components|, Finding(UnreachableElement, Component(e, c, "")));
    ReservationMember(element, e, |element.components|, Finding(ReservationDimension, Component(e, c, "")));
  }

  lemma NotFromStepOrVat(tariff: Tariff, e: nat, c: nat)
    requires e < |tariff.elements| && c < |tariff.elements[e].components|
    ensures var d := tariff.elements[e].components[c].dimension;
            && (Finding(DuplicateDimension, Component(e, c, "")) in ComponentFindings(tariff, e, c)
                <==> PricesIn(tariff.elements[e].components, d, c))
            && (Finding(UnreachableElement, Component(e, c, "")) in ComponentFindings(tariff, e, c)
                <==> Claimed(tariff.elements, e, d))
            && Finding(ReservationDimension, Component(e, c, "")) !in ComponentFindings(tariff, e, c)
  {
    hide PricesIn, Claimed, PricesAnywhere;
  }

  /** Impossible bounds on energy, duration or date are reported at the field that starts them. */
  lemma MeaningOfImpossible(tariff: Tariff, e: nat)
    requires e < |tariff.elements|
    ensures var r := tariff.elements[e].restrictions;
            (exists field :: field in IMPOSSIBLE_FIELDS
                             && Finding(ImpossibleRestriction, Element(e, field)) in Findings(tariff))
            <==> r.Some? && NeverHolds(r.value)
  {
    hide Findings, Crossed, CrossedDuration, CrossedDate;
    var element := tariff.elements[e];
    forall field | field in IMPOSSIBLE_FIELDS
      ensures var f := Finding(ImpossibleRestriction, Element(e, field));
              f in Findings(tariff) <==> f in RestrictionFindings(element, e)
    {
      FindingsOfElement(tariff, Finding(ImpossibleRestriction, Element(e, field)));
    }
    BoundFindingsMeaning(element, e);
  }

  const IMPOSSIBLE_FIELDS := ["min_kwh", "min_duration", "start_date"]

  /** Bounds on energy, duration or date that exclude everything. */
  predicate NeverHolds(r: Restrictions) {
    Crossed(r.minKwh, r.maxKwh) || CrossedDuration(r.minDuration, r.maxDuration) || CrossedDate(r.startDate, r.endDate)
  }

  lemma BoundFindingsMeaning(element: TariffElement, e: nat)
    ensures (exists field :: field in IMPOSSIBLE_FIELDS
                             && Finding(ImpossibleRestriction, Element(e, field)) in RestrictionFindings(element, e))
            <==> element.restrictions.Some? && NeverHolds(element.restrictions.value)
  {
    if element.restrictions.Some? {
      var r := element.restrictions.value;
      forall field | field in IMPOSSIBLE_FIELDS
        ensures Finding(ImpossibleRestriction, Element(e, field)) !in ReservationFindings(element, e,
                |element.components|)
      {
        ReservationMember(element, e, |element.components|, Finding(ImpossibleRestriction, Element(e, field)));
      }
      if Crossed(r.minKwh, r.maxKwh) {
        assert "min_kwh" in IMPOSSIBLE_FIELDS;
      }
      if CrossedDuration(r.minDuration, r.maxDuration) {
        assert "min_duration" in IMPOSSIBLE_FIELDS;
      }
      if CrossedDate(r.startDate, r.endDate) {
        assert "start_date" in IMPOSSIBLE_FIELDS;
      }
    }
  }

  // ---------------------------------------------------------------------------------------
  // Soundness against the engine
  // ---------------------------------------------------------------------------------------

  /** The lookups the engine makes for a period: four quantities, and a flat fee in two contexts. */
  predicate EngineLooksUp(d: Dimension, reserving: bool) {
    reserving ==> d.Time? || d.Flat?
  }

  /** Some lookup of some stretch selects component `c` of element `e`. */
  ghost predicate Selected(tariff: Tariff, ctx: Context, e: nat, c: nat) {
    exists d, reserving :: EngineLooksUp(d, reserving) && Selects(tariff, d, ctx.Reserving(reserving), e, c)
  }

  predicate Selects(tariff: Tariff, d: Dimension, ctx: Context, e: nat, c: nat) {
    var found := FindComponent(tariff, d, ctx);
    found.Some? && found.value.element == e && found.value.index == c
  }

  /** Every quantity of a period is looked up in one of these ways. */
  lemma EveryQuantityIsLookedUp(p: PricedPeriod)
    ensures forall c :: c in PeriodQuantities(p) ==> EngineLooksUp(c.dimension, c.reserving)
  {
  }

  /** What is selected prices the dimension looked up, by an active element fit for the kind of time. */
  lemma SelectedComponent(tariff: Tariff, d: Dimension, ctx: Context, e: nat, c: nat)
    requires Selects(tariff, d, ctx, e, c)
    ensures e < |tariff.elements| && c < |tariff.elements[e].components|
    ensures tariff.elements[e].components[c].dimension == d && RestrictionsMatch(tariff.elements[e], ctx)
    ensures ElementFits(tariff.elements[e], ctx.reservationExpired, ctx.isReservation)
  {
    ReservedExactlyWhenRestricted(tariff, d, ctx);
    assert Prices(tariff.elements, e, d, ctx);
    assert FindInElement(tariff.elements[e].components, d) == Some(c);
  }

  /** A second component for a dimension in one element is never selected, in any context. */
  lemma DuplicateNeverSelected(tariff: Tariff, e: nat, c: nat, d: Dimension, ctx: Context)
    requires e < |tariff.elements| && c < |tariff.elements[e].components|
    requires PricesIn(tariff.elements[e].components, tariff.elements[e].components[c].dimension, c)
    ensures !Selects(tariff, d, ctx, e, c)
  {
    hide RestrictionsMatch;
  }

  /**
   * A component behind an unrestricted element for its dimension is selected only for reserved
   * time, by an element that carries a reservation restriction.
   */
  lemma ClaimedSelectedOnlyForReservations(tariff: Tariff, e: nat, c: nat, d: Dimension, ctx: Context)
    requires e < |tariff.elements| && c < |tariff.elements[e].components|
    requires Claimed(tariff.elements, e, tariff.elements[e].components[c].dimension)
    requires Selects(tariff, d, ctx, e, c)
    ensures ctx.isReservation && ReservationOf(tariff.elements[e]).Some?
  {
    ReservedExactlyWhenRestricted(tariff, d, ctx);
    assert FindInElement(tariff.elements[e].components, d) == Some(c);
    var k :| 0 <= k < e && Unrestricted(tariff.elements[k])
             && PricesIn(tariff.elements[k].components, d, |tariff.elements[k].components|);
    assert !Prices(tariff.elements, k, d, ctx);
    UnrestrictedMatches(tariff.elements[k], ctx);
  }

  /** Element `k` prices reserved time: it carries a reservation restriction, is active and prices `d`. */
  predicate PricesReserved(tariff: Tariff, k: nat, d: Dimension, ctx: Context)
    requires k < |tariff.elements|
  {
    var element := tariff.elements[k];
    && ReservationOf(element).Some? && RestrictionsMatch(element, ctx)
    && PricesIn(element.components, d, |element.components|)
  }

  /**
   * And it is selected exactly for reserved time, when its own element is the first with a
   * reservation restriction that is active and prices its dimension, and it is the first in it.
   */
  lemma ClaimedSelectedExactly(tariff: Tariff, e: nat, c: nat, ctx: Context)
    requires e < |tariff.elements| && c < |tariff.elements[e].components|
    requires Claimed(tariff.elements, e, tariff.elements[e].components[c].dimension)
    ensures var own := tariff.elements[e].components[c].dimension;
            Selects(tariff, own, ctx, e, c)
            <==> && ctx.isReservation
                 && PricesReserved(tariff, e, own, ctx) && !PricesIn(tariff.elements[e].components, own, c)
                 && forall k :: 0 <= k < e ==> !PricesReserved(tariff, k, own, ctx)
  {
    hide RestrictionsMatch, ReservationOf, FindComponent, Claimed;
    var own := tariff.elements[e].components[c].dimension;
    SelectsExactly(tariff, own, ctx, e, c);
    if Selects(tariff, own, ctx, e, c) {
      ClaimedSelectedOnlyForReservations(tariff, e, c, own, ctx);
    }
    if ctx.isReservation {
      forall k | 0 <= k <= e
        ensures Prices(tariff.elements, k, own, ctx) <==> PricesReserved(tariff, k, own, ctx)
      {
        ReservedByRestriction(tariff, k, own, ctx);
      }
    }
  }

  /** A component is selected exactly when its element is the first to price `d`, and it is the first in it. */
  lemma SelectsExactly(tariff: Tariff, d: Dimension, ctx: Context, e: nat, c: nat)
    requires e < |tariff.elements| && c < |tariff.elements[e].components|
    requires tariff.elements[e].components[c].dimension == d
    ensures Selects(tariff, d, ctx, e, c)
            <==> && Prices(tariff.elements, e, d, ctx) && !PricesIn(tariff.elements[e].components, d, c)
                 && forall k :: 0 <= k < e ==> !Prices(tariff.elements, k, d, ctx)
  {
    hide RestrictionsMatch;
  }

  /** For reserved time an element that prices carries a reservation restriction. */
  lemma ReservedByRestriction(tariff: Tariff, k: nat, d: Dimension, ctx: Context)
    requires k < |tariff.elements| && ctx.isReservation
    ensures Prices(tariff.elements, k, d, ctx) <==> PricesReserved(tariff, k, d, ctx)
  {
  }

  lemma UnrestrictedMatches(element: TariffElement, ctx: Context)
    requires Unrestricted(element)
    ensures RestrictionsMatch(element, ctx) <==> !ctx.isReservation
  {
  }

  /** Energy and parking are never priced by an element that describes reservation costs. */
  lemma ReservationDimensionNeverSelected(tariff: Tariff, e: nat, c: nat, ctx: Context)
    requires e < |tariff.elements| && c < |tariff.elements[e].components|
    requires ReservationOf(tariff.elements[e]).Some?
    requires var d := tariff.elements[e].components[c].dimension; !d.Flat? && !d.Time?
    ensures !Selected(tariff, ctx, e, c)
  {
    forall d, reserving | EngineLooksUp(d, reserving)
      ensures !Selects(tariff, d, ctx.Reserving(reserving), e, c)
    {
      if Selects(tariff, d, ctx.Reserving(reserving), e, c) {
        SelectedComponent(tariff, d, ctx.Reserving(reserving), e, c);
      }
    }
  }

  lemma NeverHoldsNeverMatches(r: Restrictions, ctx: Context)
    requires NeverHolds(r)
    ensures !Matches(r, ctx)
  {
  }

  /**
   * The components the linter calls dead, and rightly: a duplicate, a component behind an
   * unrestricted element unless it describes reservation costs, energy or parking of a reservation,
   * and anything under impossible bounds on energy, duration or date.
   */
  predicate Dead(tariff: Tariff, e: nat, c: nat)
    requires e < |tariff.elements| && c < |tariff.elements[e].components|
  {
    var (element, found) := (tariff.elements[e], Findings(tariff));
    || Finding(DuplicateDimension, Component(e, c, "")) in found
    || (Finding(UnreachableElement, Component(e, c, "")) in found && ReservationOf(element).None?)
    || Finding(ReservationDimension, Component(e, c, "")) in found
    || (exists field :: field in IMPOSSIBLE_FIELDS
                        && Finding(ImpossibleRestriction, Element(e, field)) in found)
  }

  /** A dead component is selected by none of the lookups the engine makes, in any context. */
  lemma LintIsSound(tariff: Tariff, e: nat, c: nat, ctx: Context)
    requires e < |tariff.elements| && c < |tariff.elements[e].components|
    requires Dead(tariff, e, c)
    ensures !Selected(tariff, ctx, e, c)
  {
    hide FindComponent, Findings, ReservationOf, Claimed, PricesIn, NeverHolds, Selected;
    MeaningOfFindings(tariff, e, c);
    MeaningOfImpossible(tariff, e);
    if ReservationDimensionFlagged(tariff.elements[e], c) {
      ReservationDimensionNeverSelected(tariff, e, c, ctx);
    } else {
      NotSelectedUnless(tariff, e, c, ctx);
    }
  }

  lemma NotSelectedUnless(tariff: Tariff, e: nat, c: nat, ctx: Context)
    requires e < |tariff.elements| && c < |tariff.elements[e].components|
    requires var (element, d) := (tariff.elements[e], tariff.elements[e].components[c].dimension);
             || PricesIn(element.components, d, c)
             || (Claimed(tariff.elements, e, d) && ReservationOf(element).None?)
             || (element.restrictions.Some? && NeverHolds(element.restrictions.value))
    ensures !Selected(tariff, ctx, e, c)
  {
    hide FindComponent, Claimed, PricesIn, NeverHolds;
    forall d, reserving | EngineLooksUp(d, reserving)
      ensures !Selects(tariff, d, ctx.Reserving(reserving), e, c)
    {
      if Selects(tariff, d, ctx.Reserving(reserving), e, c) {
        NotSelectedAt(tariff, e, c, d, ctx.Reserving(reserving));
      }
    }
  }

  lemma NotSelectedAt(tariff: Tariff, e: nat, c: nat, d: Dimension, ctx: Context)
    requires e < |tariff.elements| && c < |tariff.elements[e].components|
    requires Selects(tariff, d, ctx, e, c)
    ensures var (element, own) := (tariff.elements[e], tariff.elements[e].components[c].dimension);
            && !PricesIn(element.components, own, c)
            && !(Claimed(tariff.elements, e, own) && ReservationOf(element).None?)
            && !(element.restrictions.Some? && NeverHolds(element.restrictions.value))
  {
    var (element, own) := (tariff.elements[e], tariff.elements[e].components[c].dimension);
    SelectedComponent(tariff, d, ctx, e, c);
    if PricesIn(element.components, own, c) {
      DuplicateNeverSelected(tariff, e, c, d, ctx);
    }
    if Claimed(tariff.elements, e, own) {
      ClaimedSelectedOnlyForReservations(tariff, e, c, d, ctx);
    }
    if element.restrictions.Some? && NeverHolds(element.restrictions.value) {
      NeverHoldsNeverMatches(element.restrictions.value, ctx);
    }
  }

  // ---------------------------------------------------------------------------------------
  // Findings that claim too much
  // ---------------------------------------------------------------------------------------

  const ONE_TIME := [PriceComponent(Time, 1.0, None, 300)]

  /** An hourly fallback in front of an hourly reservation element. */
  const FALLBACK_FIRST := [TariffElement(ONE_TIME, None),
                           TariffElement(ONE_TIME, Some(UNRESTRICTED.(reservation := Some(Reservation))))]

  /**
   * An element that describes reservation costs is reported unreachable behind a fallback, and
   * yet prices reserved time: the fallback does not.
   */
  lemma UnreachableReservationIsReached(tariff: Tariff, ctx: Context)
    requires tariff.elements == FALLBACK_FIRST && !ctx.reservationExpired
    ensures Finding(UnreachableElement, Component(1, 0, "")) in Findings(tariff)
    ensures Selects(tariff, Time, ctx.Reserving(true), 1, 0)
  {
    MeaningOfFindings(tariff, 1, 0);
    assert PricesIn(tariff.elements[0].components, Time, 1) by {
      assert tariff.elements[0].components[0].dimension == Time;
    }
    var reserved := ctx.Reserving(true);
    assert FindInElement(ONE_TIME, Time) == Some(0);
    assert RestrictionsMatch(tariff.elements[1], reserved);
    assert !Prices(tariff.elements, 0, Time, reserved) && Prices(tariff.elements, 1, Time, reserved);
  }

  /** The measured figures of a period spread from below `max` to `min` or above. */
  predicate Straddles(lowest: Option<real>, highest: Option<real>, min: real, max: real) {
    lowest.Some? && highest.Some? && lowest.value < max && min <= highest.value
  }

  /** Crossed bounds on power or current are reported where the element is. */
  lemma MeaningOfCrossedMeasures(tariff: Tariff, e: nat)
    requires e < |tariff.elements|
    ensures var element := tariff.elements[e];
            && (Finding(ImpossibleRestriction, Element(e, "min_power")) in Findings(tariff)
                <==> element.restrictions.Some?
                     && Crossed(element.restrictions.value.minPower, element.restrictions.value.maxPower))
            && (Finding(ImpossibleRestriction, Element(e, "min_current")) in Findings(tariff)
                <==> element.restrictions.Some?
                     && Crossed(element.restrictions.value.minCurrent, element.restrictions.value.maxCurrent))
  {
    hide Findings;
    var element := tariff.elements[e];
    var (power, current) := (Finding(ImpossibleRestriction, Element(e, "min_power")),
                             Finding(ImpossibleRestriction, Element(e, "min_current")));
    FindingsOfElement(tariff, power);
    FindingsOfElement(tariff, current);
    ReservationMember(element, e, |element.components|, power);
    ReservationMember(element, e, |element.components|, current);
  }

  /**
   * An element reported impossible for its bounds on power holds at the start of a period exactly
   * when its other restrictions do and the period was measured from below the upper bound to at
   * or above the lower one: the lower bound reads the measured maximum, the upper bound the
   * measured minimum.
   */
  lemma CrossedPowerHolds(tariff: Tariff, e: nat, session: PricedSession, i: nat, reserving: bool)
    requires e < |tariff.elements| && Finding(ImpossibleRestriction, Element(e, "min_power")) in Findings(tariff)
    requires i < |session.periods| && ContextAtStart(session, i).Some?
    ensures tariff.elements[e].restrictions.Some?
    ensures var (r, ctx) := (tariff.elements[e].restrictions.value, ContextAtStart(session, i).value);
            var p := session.periods[i];
            && r.minPower.Some? && r.maxPower.Some?
            && (Matches(r, ctx.Reserving(reserving))
                <==> Matches(r.(minPower := None, maxPower := None), ctx.Reserving(reserving))
                     && Straddles(p.minPower, p.maxPower, r.minPower.value, r.maxPower.value))
  {
    hide Findings;
    MeaningOfCrossedMeasures(tariff, e);
  }

  /** So it is for bounds on current. */
  lemma CrossedCurrentHolds(tariff: Tariff, e: nat, session: PricedSession, i: nat, reserving: bool)
    requires e < |tariff.elements| && Finding(ImpossibleRestriction, Element(e, "min_current")) in Findings(tariff)
    requires i < |session.periods| && ContextAtStart(session, i).Some?
    ensures tariff.elements[e].restrictions.Some?
    ensures var (r, ctx) := (tariff.elements[e].restrictions.value, ContextAtStart(session, i).value);
            var p := session.periods[i];
            && r.minCurrent.Some? && r.maxCurrent.Some?
            && (Matches(r, ctx.Reserving(reserving))
                <==> Matches(r.(minCurrent := None, maxCurrent := None), ctx.Reserving(reserving))
                     && Straddles(p.minCurrent, p.maxCurrent, r.minCurrent.value, r.maxCurrent.value))
  {
    hide Findings;
    MeaningOfCrossedMeasures(tariff, e);
  }

  const ONE_ENERGY := [PriceComponent(Energy, 0.25, None, 1)]

  /** Energy at 10 kW and above, below 5 kW. */
  const CROSSED_POWER := [TariffElement(ONE_ENERGY, Some(UNRESTRICTED.(minPower := Some(10.0), maxPower := Some(5.0))))]

  /** Energy at 32 A and above, below 16 A. */
  const CROSSED_CURRENT :=
    [TariffElement(ONE_ENERGY, Some(UNRESTRICTED.(minCurrent := Some(32.0), maxCurrent := Some(16.0))))]

  /** An element reported impossible prices a period measured from 2 to 20 kW, or from 6 to 40 A. */
  lemma ImpossibleElementsAreReached(tariff: Tariff, session: PricedSession, i: nat)
    requires i < |session.periods| && ContextAtStart(session, i).Some?
    ensures var (ctx, p) := (ContextAtStart(session, i).value, session.periods[i]);
            && (tariff.elements == CROSSED_POWER && p.minPower == Some(2.0) && p.maxPower == Some(20.0) ==>
                  && Finding(ImpossibleRestriction, Element(0, "min_power")) in Findings(tariff)
                  && Selects(tariff, Energy, ctx.Reserving(false), 0, 0))
            && (tariff.elements == CROSSED_CURRENT && p.minCurrent == Some(6.0) && p.maxCurrent == Some(40.0) ==>
                  && Finding(ImpossibleRestriction, Element(0, "min_current")) in Findings(tariff)
                  && Selects(tariff, Energy, ctx.Reserving(false), 0, 0))
  {
    hide Findings;
    if tariff.elements == CROSSED_POWER || tariff.elements == CROSSED_CURRENT {
      MeaningOfCrossedMeasures(tariff, 0);
      assert FindInElement(ONE_ENERGY, Energy) == Some(0);
      var ctx := ContextAtStart(session, i).value.Reserving(false);
      assert RestrictionsMatch(tariff.elements[0], ctx) ==> Prices(tariff.elements, 0, Energy, ctx);
    }
  }

  // ---------------------------------------------------------------------------------------
  // Findings about a whole tariff
  // ---------------------------------------------------------------------------------------

  /** A finding about a whole tariff comes from no element. */
  lemma {:induction false} ElementsSayNothingOfTheWhole(tariff: Tariff, n: nat, f: Finding)
    requires n <= |tariff.elements| && f.place.Whole?
    ensures f !in ElementsFindings(tariff, n)
  {
    hide RestrictionFindings, ComponentsFindings;
    if n == 0 {
    } else {
      ElementsSayNothingOfTheWhole(tariff, n - 1, f);
      ComponentsSayNothingOfTheWhole(tariff, n - 1, |tariff.elements[n - 1].components|, f);
      RestrictionsSayNothingOfTheWhole(tariff.elements[n - 1], n - 1, f);
    }
  }

  lemma {:induction false} ComponentsSayNothingOfTheWhole(tariff: Tariff, e: nat, n: nat, f: Finding)
    requires e < |tariff.elements| && n <= |tariff.elements[e].components| && f.place.Whole?
    ensures f !in ComponentsFindings(tariff, e, n)
  {
    hide ComponentFindings;
    if n == 0 {
    } else {
      ComponentsSayNothingOfTheWhole(tariff, e, n - 1, f);
      ComponentSaysNothingOfTheWhole(tariff, e, n - 1, f);
    }
  }

  lemma ComponentSaysNothingOfTheWhole(tariff: Tariff, e: nat, c: nat, f: Finding)
    requires e < |tariff.elements| && c < |tariff.elements[e].components| && f.place.Whole?
    ensures f !in ComponentFindings(tariff, e, c)
  {
    hide PricesIn, Claimed, PricesAnywhere;
  }

  lemma RestrictionsSayNothingOfTheWhole(element: TariffElement, e: nat, f: Finding)
    requires f.place.Whole?
    ensures f !in RestrictionFindings(element, e)
  {
    hide ReservationFindings;
    ReservationMember(element, e, |element.components|, f);
  }

  const CROSSED_BEFORE_TAXES := Finding(PriceLimitsCross, Whole("min_price/before_taxes"))

  /** Crossing limits before tax are reported exactly when there are two and they cross. */
  lemma MeaningOfCrossedLimits(tariff: Tariff)
    ensures CROSSED_BEFORE_TAXES in Findings(tariff)
            <==> tariff.minPrice.Some? && tariff.maxPrice.Some?
                 && tariff.minPrice.value.beforeTaxes > tariff.maxPrice.value.beforeTaxes
  {
    ElementsSayNothingOfTheWhole(tariff, |tariff.elements|, CROSSED_BEFORE_TAXES);
    hide PricesAnywhere, NamesARate;
  }

  /**
   * Unless the linter reports that the limits cross, every pre-tax total of a tariff with both
   * limits is within them as rounded; and when it is not, the linter reports it and the total is
   * the rounded maximum.
   */
  lemma LimitsHoldUnlessReported(policy: Policy.PricingPolicy, tariff: Tariff, rawExcl: real)
    requires tariff.minPrice.Some? && tariff.maxPrice.Some?
    ensures var total := Finish.ExclTotal(policy, tariff, rawExcl);
            var min := policy.RoundCurrency(tariff.minPrice.value.beforeTaxes);
            var max := policy.RoundCurrency(tariff.maxPrice.value.beforeTaxes);
            min <= total <= max || (CROSSED_BEFORE_TAXES in Findings(tariff) && total == max)
  {
    hide Findings, Finish.ExclTotal;
    MeaningOfCrossedLimits(tariff);
    Finish.PreTaxBounds(policy, tariff, rawExcl, tariff.minPrice.value.beforeTaxes, tariff.maxPrice.value.beforeTaxes);
  }
}
