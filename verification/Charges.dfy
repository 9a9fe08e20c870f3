/**
 * What every published segment costs and how it is taxed, in terms of its price and its rate. Over
 * `quantise_and_cost` and `split_tax` of `src/tariffs/engine.rs`.
 */
module Charges {
  import opened Wrappers
  import opened Decimals
  import opened Policy
  import opened Tariffs
  import opened Input
  import opened Breakdown
  import opened Segments
  import opened Quantise
  import opened Price

  /** A hundred times what a tax is off `rate` percent of a cost. */
  function HundredOff(rate: real, cost: real, tax: real): real {
    100.0 * tax - rate * cost
  }

  /**
   * The segment is charged `charge`, its quantity times its price, to within less than a component unit: with
   * its tax, where prices include it, and else without. The tax is that of its rate to within a
   * component unit on top of the cost, and to within as many as the divisor within it; there is
   * none without a rate, where no tax applies, and at -100 percent within the price.
   */
  predicate ChargedFor(policy: PricingPolicy, charge: real, p: PricedSegment) {
    var unit := policy.ComponentUnit();
    if p.basis.NoTax? || p.vat.None? || (p.basis.Included? && p.vat.value == -100.0) then
      p.tax == 0.0 && Abs(p.cost - charge) < unit
    else if p.basis.Included? then
      && Abs(p.cost + p.tax - charge) < unit
      && Abs(HundredOff(p.vat.value, p.cost, p.tax)) < Abs(100.0 + p.vat.value) * unit
    else
      && Abs(p.cost - charge) < unit
      && Abs(HundredOff(p.vat.value, p.cost, p.tax)) < 100.0 * unit
  }

  lemma ComponentError(policy: PricingPolicy, x: real)
    ensures Abs(policy.RoundComponent(x) - x) < policy.ComponentUnit()
  {
    RoundError(policy.rounding, Pow10(policy.componentDecimals), x);
  }

  lemma OnTop(policy: PricingPolicy, stated: real, rate: real, basis: TaxBasis)
    requires !basis.NoTax? && !basis.Included?
    ensures var s := SplitTax(policy, stated, Some(rate), basis);
            s.net == stated && Abs(HundredOff(rate, stated, s.tax)) < 100.0 * policy.ComponentUnit()
  {
    hide Round, PricingPolicy.ComponentUnit;
    ComponentError(policy, Percent(rate, stated));
  }

  lemma Within(policy: PricingPolicy, stated: real, rate: real)
    requires rate != -100.0
    ensures var net := policy.RoundComponent(stated / (1.0 + rate / 100.0));
            Abs(HundredOff(rate, net, stated - net)) < Abs(100.0 + rate) * policy.ComponentUnit()
  {
    var exact := stated / (1.0 + rate / 100.0);
    hide Round, PricingPolicy.ComponentUnit;
    ComponentError(policy, exact);
    var net := policy.RoundComponent(exact);
    assert 100.0 * stated == (100.0 + rate) * exact by {
      assert (1.0 + rate / 100.0) * exact == stated;
      assert 100.0 * ((1.0 + rate / 100.0) * exact) == (100.0 + rate) * exact;
    }
    Stretched(100.0 + rate, exact - net, policy.ComponentUnit());
    assert 100.0 * (stated - net) - rate * net == (100.0 + rate) * (exact - net);
  }

  lemma Stretched(factor: real, x: real, bound: real)
    requires factor != 0.0 && Abs(x) < bound
    ensures Abs(factor * x) < Abs(factor) * bound
  {
    assert Abs(factor * x) == Abs(factor) * Abs(x);
    assert Abs(factor) * (bound - Abs(x)) > 0.0;
  }

  /** What a component states is split at the rate. */
  lemma SplitAtRate(policy: PricingPolicy, stated: real, vat: Option<real>, basis: TaxBasis)
    ensures var (s, unit) := (SplitTax(policy, stated, vat, basis), policy.ComponentUnit());
            if basis.NoTax? || vat.None? || (basis.Included? && vat.value == -100.0) then s == Split(stated, 0.0)
            else if basis.Included? then
              s.net + s.tax == stated
              && Abs(HundredOff(vat.value, s.net, s.tax)) < Abs(100.0 + vat.value) * unit
            else s.net == stated && Abs(HundredOff(vat.value, s.net, s.tax)) < 100.0 * unit
  {
    hide Round, PricingPolicy.ComponentUnit, HundredOff;
    if vat.Some? && basis.Included? {
      assert 1.0 + vat.value / 100.0 == 0.0 <==> vat.value == -100.0;
      if vat.value != -100.0 {
        Within(policy, stated, vat.value);
      }
    } else if vat.Some? && !basis.NoTax? {
      OnTop(policy, stated, vat.value, basis);
    }
  }

  /** A costed segment is charged at its price and taxed at its rate. */
  lemma CostedAtPriceAndRate(policy: PricingPolicy, s: Segment)
    ensures ChargedFor(policy, Charge(s.priced), Costed(policy, s))
    ensures Costed(policy, s).quantity == policy.RoundQuantity(s.priced.quantity)
  {
    hide Round, PricingPolicy.RoundQuantity, PricingPolicy.ComponentUnit;
    ComponentError(policy, Charge(s.priced));
    SplitAtRate(policy, Stated(policy, s.priced), s.priced.vat, s.priced.basis);
    hide SplitTax, PricingPolicy.RoundComponent, HundredOff;
  }

  /** Every segment published for a session is, for the quantity it was billed, which it states rounded. */
  lemma EveryChargeIsAtPriceAndRate(policy: PricingPolicy, session: PricedSession, tariffs: seq<Tariff>,
                                    p: PricedSegment)
    requires Priced(policy, session, tariffs).Ok?
    requires p in AllSegments(Priced(policy, session, tariffs).value.dimensions)
    ensures Planned(session, tariffs, |session.periods|).Ok?
    ensures var segments := Collect(Planned(session, tariffs, |session.periods|).value);
            exists s :: s in BilledSegments(policy.quantisation, segments) && Costed(policy, s) == p
                        && ChargedFor(policy, Charge(s.priced), p)
                        && p.quantity == policy.RoundQuantity(s.priced.quantity)
  {
    hide Priced, Planned, Collect, DimensionsOf, AllSegments, BilledSegments, Costed, ChargedFor;
    PricedDimensions(policy, session, tariffs);
    var segments := Collect(Planned(session, tariffs, |session.periods|).value);
    CostedSegments(policy, segments);
    var billed := BilledSegments(policy.quantisation, segments);
    var k :| 0 <= k < |billed| && p == Costed(policy, billed[k]);
    CostedAtPriceAndRate(policy, billed[k]);
    assert billed[k] in billed;
  }
}
