/**
 * What the rest of the linter's findings say of the engine: tariffs that are never in force or
 * price nothing by use, windows of a whole day, bounds nothing meets, steps and rates that do
 * nothing. `src/tariffs/lint.rs` against `src/tariffs/engine.rs`.
 */
module LintLaws {
  import opened Wrappers
  import opened Policy
  import opened Tariffs
  import opened Input
  import opened Lookup
  import opened Selection
  import opened Segments
  import opened Quantise
  import opened Price
  import opened Lint

  // ---------------------------------------------------------------------------------------
  // Findings about a whole tariff
  // ---------------------------------------------------------------------------------------

  /** A finding about the whole tariff is one of those made at the end of the walk. */
  lemma FindingsOfTheWhole(tariff: Tariff, code: LintCode, field: string)
    ensures Finding(code, Whole(field)) in Findings(tariff) <==> Finding(code, Whole(field)) in TariffFindings(tariff)
  {
    hide ElementsFindings, TariffFindings;
    ElementsSayNothingOfTheWhole(tariff, |tariff.elements|, Finding(code, Whole(field)));
  }

  /** A tariff is reported never active exactly when it has two dates and no moment is between them. */
  lemma MeaningOfNeverActive(tariff: Tariff)
    ensures Finding(NeverActive, Whole("end_date_time")) in Findings(tariff)
            <==> tariff.start.Some? && tariff.end.Some? && forall at :: !tariff.IsActiveAt(at)
  {
    hide Findings, PricesAnywhere, NamesARate;
    FindingsOfTheWhole(tariff, NeverActive, "end_date_time");
    if tariff.start.Some? && tariff.end.Some? && tariff.start.value < tariff.end.value {
      assert tariff.IsActiveAt(tariff.start.value);
    }
  }

  /** No session whose periods name no tariff can be priced by tariffs that are all reported never active. */
  lemma NeverActivePricesNothing(policy: PricingPolicy, session: PricedSession, tariffs: seq<Tariff>)
    requires tariffs != [] && CheckRange(session, tariffs)
    requires forall t :: t in tariffs ==> Finding(NeverActive, Whole("end_date_time")) in Findings(t)
    requires forall p :: p in session.periods ==> p.tariffId.None?
    ensures Priced(policy, session, tariffs)
            == Err(NoActiveTariff(if session.periods == [] then session.start else session.periods[0].start))
  {
    hide CheckRange, Findings, Planned, SelectByPreference;
    forall t, at | t in tariffs
      ensures !t.IsActiveAt(at)
    {
      MeaningOfNeverActive(t);
    }
    if session.periods != [] {
      assert session.periods[0] in session.periods;
      NoneToBeginWith(session, tariffs);
      FailureSticks(session, tariffs, 1, |session.periods|);
    } else {
      NothingToPlan(session, tariffs);
      assert SelectByPreference(Wanted(session), session.start, tariffs) == Err(NoActiveTariff(session.start)) by {
        Nothing(Wanted(session), session.start, tariffs);
      }
    }
  }

  lemma Nothing(wanted: Option<TariffType>, at: DateTime, tariffs: seq<Tariff>)
    requires forall t :: t in tariffs ==> !t.IsActiveAt(at)
    ensures SelectByPreference(wanted, at, tariffs) == Err(NoActiveTariff(at))
  {
  }

  lemma NothingToPlan(session: PricedSession, tariffs: seq<Tariff>)
    ensures Planned(session, tariffs, 0) == Ok([])
  {
  }

  lemma NoneToBeginWith(session: PricedSession, tariffs: seq<Tariff>)
    requires session.periods != [] && session.periods[0].tariffId.None?
    requires forall t, at :: t in tariffs ==> !t.IsActiveAt(at)
    ensures Planned(session, tariffs, 1) == Err(NoActiveTariff(session.periods[0].start))
  {
    hide SelectByPreference, ContextAtStart, ContextAtEnd;
    Nothing(Wanted(session), session.periods[0].start, tariffs);
    NothingToPlan(session, tariffs);
  }

  /** The tariff lists no component for this dimension. */
  predicate Omits(tariff: Tariff, d: Dimension) {
    forall e, c :: 0 <= e < |tariff.elements| && 0 <= c < |tariff.elements[e].components| ==>
      tariff.elements[e].components[c].dimension != d
  }

  lemma OmitsIs(tariff: Tariff, d: Dimension)
    ensures Omits(tariff, d) <==> !PricesAnywhere(tariff, d)
  {
    if !Omits(tariff, d) {
      var e, c :| 0 <= e < |tariff.elements| && 0 <= c < |tariff.elements[e].components|
                  && tariff.elements[e].components[c].dimension == d;
      assert PricesIn(tariff.elements[e].components, d, |tariff.elements[e].components|);
    }
  }

  lemma OmittedIsNeverFound(tariff: Tariff, d: Dimension, ctx: Context)
    requires Omits(tariff, d)
    ensures FindComponent(tariff, d, ctx).None?
  {
    hide RestrictionsMatch;
  }

  /**
   * A tariff is reported to price nothing by use exactly when it lists neither energy nor time, and
   * then no lookup of either finds anything, at whatever moment, for consumed or reserved time.
   */
  lemma MeaningOfNothingPriced(tariff: Tariff)
    ensures Finding(NothingPricedByUse, Whole("elements")) in Findings(tariff)
            <==> Omits(tariff, Energy) && Omits(tariff, Time)
    ensures Finding(NothingPricedByUse, Whole("elements")) in Findings(tariff) ==>
              forall ctx :: FindComponent(tariff, Energy, ctx).None? && FindComponent(tariff, Time, ctx).None?
  {
    hide Findings, PricesAnywhere, NamesARate, Omits, FindComponent;
    FindingsOfTheWhole(tariff, NothingPricedByUse, "elements");
    OmitsIs(tariff, Energy);
    OmitsIs(tariff, Time);
    if Omits(tariff, Energy) && Omits(tariff, Time) {
      forall ctx: Context
        ensures FindComponent(tariff, Energy, ctx).None? && FindComponent(tariff, Time, ctx).None?
      {
        OmittedIsNeverFound(tariff, Energy, ctx);
        OmittedIsNeverFound(tariff, Time, ctx);
      }
    }
  }

  /** A rate is stated by some component. */
  predicate StatesARate(tariff: Tariff) {
    exists e, c :: 0 <= e < |tariff.elements| && 0 <= c < |tariff.elements[e].components|
                   && tariff.elements[e].components[c].vat.Some?
  }

  /**
   * Prices are reported to include a tax nobody can split out exactly when the tariff says they
   * include one and no component states a rate; and then whatever is found is charged whole.
   */
  lemma MeaningOfUnsplittable(policy: PricingPolicy, tariff: Tariff, d: Dimension, ctx: Context, stated: real)
    ensures var reported := Finding(LintCode.TaxIncludedWithoutRate, Whole("tax_included")) in Findings(tariff);
            var found := FindComponent(tariff, d, ctx);
            && (reported <==> tariff.taxIncluded.Yes? && !StatesARate(tariff))
            && (reported && found.Some? ==>
                  SplitTax(policy, stated, found.value.component.vat, BasisOf(tariff)) == Split(stated, 0.0))
  {
    hide Findings, PricesAnywhere, RestrictionsMatch;
    FindingsOfTheWhole(tariff, LintCode.TaxIncludedWithoutRate, "tax_included");
  }

  /** Crossing limits after tax are reported exactly when two are given and no amount is within both. */
  lemma MeaningOfCrossedAfterTaxes(tariff: Tariff)
    ensures Finding(PriceLimitsCross, Whole("min_price/after_taxes")) in Findings(tariff)
            <==> tariff.minPrice.Some? && tariff.maxPrice.Some?
                 && tariff.minPrice.value.afterTaxes.Some? && tariff.maxPrice.value.afterTaxes.Some?
                 && forall x: real :: !WithinBoth(tariff.minPrice.value.afterTaxes.value,
                                                  tariff.maxPrice.value.afterTaxes.value, x)
  {
    hide Findings, PricesAnywhere, NamesARate;
    FindingsOfTheWhole(tariff, PriceLimitsCross, "min_price/after_taxes");
    if tariff.minPrice.Some? && tariff.minPrice.value.afterTaxes.Some?
       && tariff.maxPrice.Some? && tariff.maxPrice.value.afterTaxes.Some? {
      var (min, max) := (tariff.minPrice.value.afterTaxes.value, tariff.maxPrice.value.afterTaxes.value);
      if min <= max {
        assert WithinBoth(min, max, min);
      }
    }
  }

  predicate WithinBoth(min: real, max: real, x: real) {
    min <= x <= max
  }

  // ---------------------------------------------------------------------------------------
  // Findings about an element
  // ---------------------------------------------------------------------------------------

  /** A finding about an element's restrictions comes from looking at them. */
  lemma FindingsOfRestrictions(tariff: Tariff, e: nat, code: LintCode, field: string)
    requires e < |tariff.elements|
    ensures var f := Finding(code, Element(e, field));
            f in Findings(tariff) <==> f in RestrictionFindings(tariff.elements[e], e)
  {
    hide Findings, RestrictionFindings;
    FindingsOfElement(tariff, Finding(code, Element(e, field)));
  }

  /** The bounds of one restriction, when it says nothing else the linter looks at. */
  lemma FindingsOfBounds(tariff: Tariff, e: nat, code: LintCode, field: string)
    requires e < |tariff.elements| && (code.ImpossibleRestriction? || code.WholeDayWindow?)
    ensures var (f, r) := (Finding(code, Element(e, field)), tariff.elements[e].restrictions);
            f in Findings(tariff) <==> r.Some? && r.value != UNRESTRICTED && f in BoundFindings(r.value, e)
  {
    hide Findings, BoundFindings;
    var element := tariff.elements[e];
    FindingsOfRestrictions(tariff, e, code, field);
    ReservationMember(element, e, |element.components|, Finding(code, Element(e, field)));
  }

  /** An amount is at least the one bound and under the other. */
  predicate Meets(min: real, max: real, x: real) {
    min <= x && x < max
  }

  /** So is a whole number of seconds, or a day. */
  predicate MeetsWhole(min: int, max: int, x: int) {
    min <= x < max
  }

  /** A pair of bounds that are both given and that nothing meets. */
  ghost predicate Unmet(min: Option<real>, max: Option<real>) {
    min.Some? && max.Some? && forall x :: !Meets(min.value, max.value, x)
  }

  ghost predicate UnmetWhole(min: Option<int>, max: Option<int>) {
    min.Some? && max.Some? && forall x :: !MeetsWhole(min.value, max.value, x)
  }

  lemma UnmetIsCrossed(min: Option<real>, max: Option<real>)
    ensures Unmet(min, max) <==> min.Some? && max.Some? && min.value >= max.value
  {
    if min.Some? && max.Some? && min.value < max.value {
      assert Meets(min.value, max.value, min.value);
    }
  }

  lemma UnmetIsCrossedWhole(min: Option<int>, max: Option<int>)
    ensures UnmetWhole(min, max) <==> min.Some? && max.Some? && min.value >= max.value
  {
    if min.Some? && max.Some? && min.value < max.value {
      assert MeetsWhole(min.value, max.value, min.value);
    }
  }

  /**
   * Bounds are reported impossible, each pair at its own field, exactly when both are given and
   * nothing meets them: no energy, power or current, no number of seconds, no day.
   */
  lemma MeaningOfBounds(tariff: Tariff, e: nat, r: Restrictions)
    requires e < |tariff.elements| && tariff.elements[e].restrictions == Some(r)
    ensures var reported := (field: string) =>
              Finding(ImpossibleRestriction, Element(e, field)) in Findings(tariff);
            && (reported("min_kwh") <==> Unmet(r.minKwh, r.maxKwh))
            && (reported("min_power") <==> Unmet(r.minPower, r.maxPower))
            && (reported("min_current") <==> Unmet(r.minCurrent, r.maxCurrent))
            && (reported("min_duration") <==> UnmetWhole(r.minDuration, r.maxDuration))
            && (reported("start_date") <==> UnmetWhole(r.startDate, r.endDate))
  {
    FindingsOfBounds(tariff, e, ImpossibleRestriction, "min_kwh");
    FindingsOfBounds(tariff, e, ImpossibleRestriction, "min_power");
    FindingsOfBounds(tariff, e, ImpossibleRestriction, "min_current");
    FindingsOfBounds(tariff, e, ImpossibleRestriction, "min_duration");
    FindingsOfBounds(tariff, e, ImpossibleRestriction, "start_date");
    MeasuresAtTheirFields(r, e);
    SpansAtTheirFields(r, e);
    hide Findings, BoundFindings, Unmet, UnmetWhole;
    UnmetIsCrossed(r.minKwh, r.maxKwh);
    UnmetIsCrossed(r.minPower, r.maxPower);
    UnmetIsCrossed(r.minCurrent, r.maxCurrent);
    UnmetIsCrossedWhole(r.minDuration, r.maxDuration);
    UnmetIsCrossedWhole(r.startDate, r.endDate);
  }

  /** Each pair of bounds is reported at its own field. */
  lemma MeasuresAtTheirFields(r: Restrictions, e: nat)
    ensures var at := (field: string) => Finding(ImpossibleRestriction, Element(e, field)) in BoundFindings(r, e);
            && (at("min_kwh") <==> Crossed(r.minKwh, r.maxKwh))
            && (at("min_power") <==> Crossed(r.minPower, r.maxPower))
            && (at("min_current") <==> Crossed(r.minCurrent, r.maxCurrent))
  {
    hide Crossed, CrossedDuration, CrossedDate;
  }

  lemma SpansAtTheirFields(r: Restrictions, e: nat)
    ensures var at := (field: string) => Finding(ImpossibleRestriction, Element(e, field)) in BoundFindings(r, e);
            && (at("min_duration") <==> CrossedDuration(r.minDuration, r.maxDuration))
            && (at("start_date") <==> CrossedDate(r.startDate, r.endDate))
  {
    hide Crossed, CrossedDuration, CrossedDate;
  }

  /**
   * A window is reported to be the whole day exactly when both ends are given and no minute is
   * outside it; and then leaving both ends out changes nothing.
   */
  lemma MeaningOfWholeDay(tariff: Tariff, e: nat, r: Restrictions)
    requires e < |tariff.elements| && tariff.elements[e].restrictions == Some(r)
    ensures var reported := Finding(WholeDayWindow, Element(e, "start_time")) in Findings(tariff);
            && (reported <==> r.startTime.Some? && r.endTime.Some? && forall t: nat :: TimeOfDayMatches(r, t))
            && (reported ==> forall ctx :: Matches(r, ctx) <==> Matches(r.(startTime := None, endTime := None), ctx))
  {
    hide Findings;
    FindingsOfBounds(tariff, e, WholeDayWindow, "start_time");
    if r.startTime.Some? && r.endTime.Some? && r.startTime != r.endTime {
      assert !TimeOfDayMatches(r, r.endTime.value);
    }
  }

  /** Restrictions are reported empty exactly when they restrict nothing but the kind of time. */
  lemma MeaningOfEmpty(tariff: Tariff, e: nat, ctx: Context)
    requires e < |tariff.elements|
    ensures var (element, reported) := (tariff.elements[e],
                                        Finding(EmptyRestrictions, Element(e, "")) in Findings(tariff));
            && (reported <==> element.restrictions == Some(UNRESTRICTED))
            && (reported ==> (RestrictionsMatch(element, ctx)
                              <==> RestrictionsMatch(TariffElement(element.components, None), ctx)))
  {
    hide Findings;
    var element := tariff.elements[e];
    FindingsOfRestrictions(tariff, e, EmptyRestrictions, "");
    ReservationMember(element, e, |element.components|, Finding(EmptyRestrictions, Element(e, "")));
  }

  // ---------------------------------------------------------------------------------------
  // Findings about a component
  // ---------------------------------------------------------------------------------------

  lemma FindingsOfComponent(tariff: Tariff, e: nat, c: nat, code: LintCode, field: string)
    requires e < |tariff.elements| && c < |tariff.elements[e].components| && field != ""
    ensures var f := Finding(code, Component(e, c, field));
            f in Findings(tariff) <==>
              f in StepFindings(tariff, e, c, tariff.elements[e].components[c])
              || f in VatFindings(tariff, e, c, tariff.elements[e].components[c])
  {
    hide Findings, ComponentFindings, RestrictionFindings, StepFindings, VatFindings;
    var f := Finding(code, Component(e, c, field));
    FindingsOfElement(tariff, f);
    NotOfRestrictions(tariff.elements[e], e, c, code, field);
    OfStepOrRate(tariff, e, c, code, field);
  }

  lemma NotOfRestrictions(element: TariffElement, e: nat, c: nat, code: LintCode, field: string)
    requires field != ""
    ensures Finding(code, Component(e, c, field)) !in RestrictionFindings(element, e)
  {
    hide ReservationFindings;
    ReservationMember(element, e, |element.components|, Finding(code, Component(e, c, field)));
  }

  lemma OfStepOrRate(tariff: Tariff, e: nat, c: nat, code: LintCode, field: string)
    requires e < |tariff.elements| && c < |tariff.elements[e].components| && field != ""
    ensures var f := Finding(code, Component(e, c, field));
            f in ComponentFindings(tariff, e, c) <==>
              f in StepFindings(tariff, e, c, tariff.elements[e].components[c])
              || f in VatFindings(tariff, e, c, tariff.elements[e].components[c])
  {
    hide PricesIn, Claimed, StepFindings, VatFindings;
  }

  /**
   * A step is reported to be zero exactly when a component that has a unit states one, which is
   * billed as measured; and one above 1 on a flat fee is reported, which is counted in no unit.
   */
  lemma MeaningOfSteps(tariff: Tariff, e: nat, c: nat, quantity: real)
    requires e < |tariff.elements| && c < |tariff.elements[e].components|
    ensures var component := tariff.elements[e].components[c];
            var reported := (code: LintCode) => Finding(code, Component(e, c, "step_size")) in Findings(tariff);
            && (reported(ZeroStepSize) <==> component.dimension != Flat && component.stepSize == 0)
            && (reported(ZeroStepSize) ==>
                  Apply(StepSize, quantity, component.stepSize, UnitScale(component.dimension)) == quantity)
            && (reported(FlatStepSize) <==> component.dimension == Flat && component.stepSize > 1)
            && (reported(FlatStepSize) ==> forall time :: !IsQuantised(component.dimension, time))
  {
    hide Findings, PricesAnywhere;
    FindingsOfComponent(tariff, e, c, ZeroStepSize, "step_size");
    FindingsOfComponent(tariff, e, c, FlatStepSize, "step_size");
  }

  /**
   * A rate is reported implausible exactly when it is below 0 or above 100 percent, and one on a
   * tariff that no tax applies to exactly when there is one; that one taxes nothing.
   */
  lemma MeaningOfRates(policy: PricingPolicy, tariff: Tariff, e: nat, c: nat, stated: real)
    requires e < |tariff.elements| && c < |tariff.elements[e].components|
    ensures var vat := tariff.elements[e].components[c].vat;
            var reported := (code: LintCode) => Finding(code, Component(e, c, "vat")) in Findings(tariff);
            && (reported(ImplausibleVat) <==> vat.Some? && !(0.0 <= vat.value <= 100.0))
            && (reported(TaxRateWithoutTax) <==> vat.Some? && tariff.taxIncluded.NotApplicable?)
            && (reported(TaxRateWithoutTax) ==>
                  SplitTax(policy, stated, vat, BasisOf(tariff)) == Split(stated, 0.0)
                  && SplitTax(policy, stated, vat, BasisOf(tariff)) == SplitTax(policy, stated, None, BasisOf(tariff)))
  {
    hide Findings, PricesAnywhere;
    FindingsOfComponent(tariff, e, c, ImplausibleVat, "vat");
    FindingsOfComponent(tariff, e, c, TaxRateWithoutTax, "vat");
  }
}
