/**
 * The two prices a breakdown is published as: `to_price_v2_3_0` and `to_price_v2_2_1` of
 * `src/tariffs/breakdown.rs` against the conversion of prices in `src/convert/v2_2_1_v2_3_0.rs`.
 */
module Published {
  import opened Wrappers
  import opened Text
  import opened Policy
  import opened Tariffs
  import opened Input
  import opened Breakdown
  import opened Price
  import opened OwnWork
  import opened Convert
  import opened RoundTrip
  import Old = Ocpi221
  import New = Ocpi230
  import Sums

  /** The result of a pricing run as an OCPI 2.2.1 price. */
  function ToOldPrice(b: CostBreakdown): Old.Price {
    Old.Price(b.totalExclVat, Some(b.totalInclVat), map[])
  }

  /** Every tax line of a published price says more than 2.2.1 can. */
  lemma EveryLineIsFolded(b: CostBreakdown, i: nat)
    requires i < |b.taxes|
    ensures Folded(ToPrice(b).taxes, i)
  {
  }

  /**
   * Taking the 2.3.0 price of a session down gives its 2.2.1 price, exactly when it has a tax line:
   * without one the former does not state the inclusive total, which is then the exclusive one.
   * Every tax line is reported lost, and nothing else.
   */
  lemma PublishedPricesAgree(policy: PricingPolicy, session: PricedSession, tariffs: seq<Tariff>, at: string)
    requires Priced(policy, session, tariffs).Ok?
    ensures var b := Priced(policy, session, tariffs).value;
            var down := PriceDown(ToPrice(b));
            && (down.value == ToOldPrice(b) <==> b.taxes != [])
            && (b.taxes == [] ==> b.totalInclVat == b.totalExclVat && down.value == ToOldPrice(b).(inclVat := None))
            && (at in down.lossy <==> exists i :: 0 <= i < |b.taxes| && at == "/taxes/" + Numeral(i))
  {
    EveryBreakdownAddsUp(policy, session, tariffs);
    PublishedPriceAddsUp(policy, session, tariffs);
    var b := Priced(policy, session, tariffs).value;
    hide Priced, Numeral;
    NothingTaxed();
    forall i | 0 <= i < |b.taxes|
      ensures Folded(ToPrice(b).taxes, i)
    {
      EveryLineIsFolded(b, i);
    }
    FoldedLinesAre(ToPrice(b).taxes, |b.taxes|, at);
    hide FoldedLines, Folded;
  }

  lemma NothingTaxed()
    ensures Sums.SumBy<TaxLine>([], Amount) == 0.0
  {
  }

  /** Either price states both totals to a reader of either version. */
  lemma PublishedTotalsSurvive(policy: PricingPolicy, session: PricedSession, tariffs: seq<Tariff>)
    requires Priced(policy, session, tariffs).Ok?
    ensures var b := Priced(policy, session, tariffs).value;
            var up := PriceUp(ToOldPrice(b)).value;
            SameAmounts(up, ToPrice(b)) && up.beforeTaxes == b.totalExclVat && up.AfterTaxes() == b.totalInclVat
  {
    PublishedPriceAddsUp(policy, session, tariffs);
    var b := Priced(policy, session, tariffs).value;
    hide Priced;
    var up := PriceUp(ToOldPrice(b)).value;
    Sums.SumOne(up.taxes[0], New.AmountOf);
    assert SameAmounts(up, ToPrice(b));
  }
}
