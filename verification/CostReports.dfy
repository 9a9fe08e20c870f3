/**
 * The loss reports of pages of Tariffs, Sessions and CDRs on the way down: exactly the tax
 * statements and tax lines that a 2.2.1 price cannot make, and the identifiers it has no place for.
 */
module CostReports {
  import opened Wrappers
  import opened Json
  import opened Text
  import opened Codec
  import opened Convert
  import opened RoundTrip
  import opened Wire
  import opened LossReports
  import New = Ocpi230

  /** A member that is absent or null. */
  predicate Absent(fields: Fields, name: string) {
    name !in fields || fields[name].Null?
  }

  // ---------------------------------------------------------------------------------------
  // What a document loses
  // ---------------------------------------------------------------------------------------

  /** The documents of a price's tax lines. */
  function TaxDocs(price: Json): seq<Json> {
    if price.Object? && "taxes" in price.fields && price.fields["taxes"].Array? then price.fields["taxes"].items else []
  }

  /** A tax line that says no more than an amount of VAT. */
  predicate PlainLine(line: Json) {
    && line.Object? && Get(line.fields, "name") == Some(Str("VAT"))
    && Absent(line.fields, "percentage") && Absent(line.fields, "account_number")
  }

  /** A price loses the detail of a tax line unless it is the only one and plain. */
  ghost predicate PriceLoses(price: Json, q: string) {
    var lines := TaxDocs(price);
    exists i :: 0 <= i < |lines| && q == "/taxes/" + Numeral(i) && (|lines| > 1 || !PlainLine(lines[i]))
  }

  /** A member that holds a price loses what the price does. */
  ghost predicate CostLoses(fields: Fields, name: string, q: string) {
    !Absent(fields, name) && exists r :: PriceLoses(fields[name], r) && q == "/" + name + r
  }

  /** A tariff loses any statement about tax but `NO`, and a preauthorised amount. */
  predicate TariffLoses(doc: Json, q: string) {
    && doc.Object?
    && ((q == "/tax_included" && Get(doc.fields, "tax_included") != Some(Str("NO")))
        || (q == "/preauthorize_amount" && !Absent(doc.fields, "preauthorize_amount")))
  }

  ghost predicate SessionLoses(doc: Json, q: string) {
    doc.Object? && CostLoses(doc.fields, "total_cost", q)
  }

  /** A list of tariffs loses what each of them does. */
  ghost predicate TariffsLose(fields: Fields, q: string) {
    "tariffs" in fields && fields["tariffs"].Array?
    && exists i: nat, r: string :: IsAt("/tariffs/", i, r, q) && i < |fields["tariffs"].items|
                                   && TariffLoses(fields["tariffs"].items[i], r)
  }

  const COST_FIELDS := ["total_cost", "total_fixed_cost", "total_energy_cost", "total_time_cost", "total_parking_cost",
                        "total_reservation_cost"]

  ghost predicate CdrLoses(doc: Json, q: string) {
    && doc.Object?
    && (TariffsLose(doc.fields, q)
        || (exists name :: name in COST_FIELDS && CostLoses(doc.fields, name, q))
        || (q == "/booking_id" && !Absent(doc.fields, "booking_id")))
  }

  ghost predicate Loses(kind: ObjectKind, doc: Json, q: string) {
    match kind
    case Tariff => TariffLoses(doc, q)
    case Session => SessionLoses(doc, q)
    case Cdr => CdrLoses(doc, q)
    case _ => false
  }

  // ---------------------------------------------------------------------------------------
  // Prices
  // ---------------------------------------------------------------------------------------

  lemma LineIsPlain(line: Json)
    requires DecodeTaxAmount(line).Some?
    ensures var t := DecodeTaxAmount(line).value;
            PlainLine(line) <==> t.name == IMPLIED_VAT_NAME && t.percentage.None? && t.accountNumber.None?
  {
  }

  lemma PriceReport(price: Json, q: string)
    requires DecodeNewPrice(price).Some?
    ensures q in PriceDown(DecodeNewPrice(price).value).lossy <==> PriceLoses(price, q)
  {
    var (taxes, lines) := (DecodeNewPrice(price).value.taxes, TaxDocs(price));
    hide Numeral, DecodeTaxAmount, PlainLine, FoldedLines, Folded;
    FoldedLinesAre(taxes, |taxes|, q);
    forall i | 0 <= i < |lines|
      ensures Folded(taxes, i) <==> |lines| > 1 || !PlainLine(lines[i])
    {
      LineIsPlain(lines[i]);
      FoldedIs(taxes, i);
    }
    if q in FoldedLines(taxes, |taxes|) {
      var i :| 0 <= i < |taxes| && Folded(taxes, i) && q == "/taxes/" + Numeral(i);
      assert |lines| > 1 || !PlainLine(lines[i]);
    }
    if PriceLoses(price, q) {
      var i :| 0 <= i < |lines| && q == "/taxes/" + Numeral(i) && (|lines| > 1 || !PlainLine(lines[i]));
      assert Folded(taxes, i);
    }
  }

  lemma FoldedIs(taxes: seq<New.TaxAmount>, i: nat)
    requires i < |taxes|
    ensures Folded(taxes, i)
            <==> |taxes| > 1 || taxes[i].name != IMPLIED_VAT_NAME || taxes[i].percentage.Some?
                 || taxes[i].accountNumber.Some?
  {
  }

  lemma LiftedIn(at: string, report: Report, q: string)
    ensures q in Lift(at, report) <==> exists r :: r in report && q == at + r
  {
    if r :| r in report && q == at + r {
      var i :| 0 <= i < |report| && report[i] == r;
      assert Lift(at, report)[i] == q;
    }
  }

  lemma CostReport(fields: Fields, name: string, at: string, q: string)
    requires Optional(Get(fields, name), NewPriceIn).Some? && at == "/" + name
    ensures q in CostDown(Optional(Get(fields, name), NewPriceIn).value, at).lossy <==> CostLoses(fields, name, q)
  {
    hide DecodeNewPrice, PriceDown, PriceLoses;
    if !Absent(fields, name) {
      var price := DecodeNewPrice(fields[name]).value;
      LiftedIn(at, PriceDown(price).lossy, q);
      forall r: string
        ensures r in PriceDown(price).lossy <==> PriceLoses(fields[name], r)
      {
        PriceReport(fields[name], r);
      }
    }
  }

  // ---------------------------------------------------------------------------------------
  // Objects
  // ---------------------------------------------------------------------------------------

  lemma TariffReport(doc: Json, q: string)
    requires DecodeNewTariff(doc).Some?
    ensures q in TariffDown(DecodeNewTariff(doc).value).lossy <==> TariffLoses(doc, q)
  {
    hide Shared, PriceLimitIn, LimitDown;
  }

  lemma SessionReport(doc: Json, q: string)
    requires DecodeNewSession(doc).Some?
    ensures q in SessionDown(DecodeNewSession(doc).value).lossy <==> SessionLoses(doc, q)
  {
    hide Shared, Optional, CostDown, CostLoses, NewPriceIn;
    assert "/total_cost" == "/" + "total_cost";
    CostReport(doc.fields, "total_cost", "/total_cost", q);
  }

  lemma TariffsReport(fields: Fields, q: string)
    requires Decoded(ItemsOrNone(Get(fields, "tariffs")), DecodeNewTariff).Some?
    ensures q in ConvertAll(TariffDown, Decoded(ItemsOrNone(Get(fields, "tariffs")), DecodeNewTariff).value,
                            "/tariffs/").lossy
            <==> TariffsLose(fields, q)
  {
    hide DecodeNewTariff, TariffDown, TariffLoses, Numeral, ConvertAll;
    var tariffs := Decoded(ItemsOrNone(Get(fields, "tariffs")), DecodeNewTariff).value;
    ListReport(TariffDown, tariffs, "/tariffs/", q);
    if "tariffs" in fields {
      var docs := fields["tariffs"].items;
      forall i, r | 0 <= i < |docs|
        ensures r in TariffDown(tariffs[i]).lossy <==> TariffLoses(docs[i], r)
      {
        TariffReport(docs[i], r);
      }
    }
  }

  lemma CostPointers()
    ensures "/total_cost" == "/" + "total_cost" && "/total_fixed_cost" == "/" + "total_fixed_cost"
    ensures "/total_energy_cost" == "/" + "total_energy_cost" && "/total_time_cost" == "/" + "total_time_cost"
    ensures "/total_parking_cost" == "/" + "total_parking_cost"
    ensures "/total_reservation_cost" == "/" + "total_reservation_cost"
  {
  }

  lemma CostsReport(doc: Json, q: string)
    requires DecodeNewCdr(doc).Some?
    ensures var c := DecodeNewCdr(doc).value;
            q in Lift("/total_cost", PriceDown(c.totalCost).lossy)
                 + CostDown(c.totalFixedCost, "/total_fixed_cost").lossy
                 + CostDown(c.totalEnergyCost, "/total_energy_cost").lossy
                 + CostDown(c.totalTimeCost, "/total_time_cost").lossy
                 + CostDown(c.totalParkingCost, "/total_parking_cost").lossy
                 + CostDown(c.totalReservationCost, "/total_reservation_cost").lossy
            <==> exists name :: name in COST_FIELDS && CostLoses(doc.fields, name, q)
  {
    CostPointers();
    hide Shared, CostLoses, NewPriceIn, Decoded, CostDown, PriceDown;
    var (f, c) := (doc.fields, DecodeNewCdr(doc).value);
    TotalReport(f, "total_cost", "/total_cost", q);
    CostReport(f, "total_fixed_cost", "/total_fixed_cost", q);
    CostReport(f, "total_energy_cost", "/total_energy_cost", q);
    CostReport(f, "total_time_cost", "/total_time_cost", q);
    CostReport(f, "total_parking_cost", "/total_parking_cost", q);
    CostReport(f, "total_reservation_cost", "/total_reservation_cost", q);
    SomeCostLoses(f, q);
  }

  lemma TotalReport(fields: Fields, name: string, at: string, q: string)
    requires NewPriceIn(Get(fields, name)).Some? && at == "/" + name
    ensures q in Lift(at, PriceDown(NewPriceIn(Get(fields, name)).value).lossy) <==> CostLoses(fields, name, q)
  {
    hide PriceDown, CostLoses;
    CostReport(fields, name, at, q);
  }

  /** One of the six costs loses something. */
  lemma SomeCostLoses(fields: Fields, q: string)
    ensures (exists name :: name in COST_FIELDS && CostLoses(fields, name, q))
            <==> CostLoses(fields, "total_cost", q) || CostLoses(fields, "total_fixed_cost", q)
                 || CostLoses(fields, "total_energy_cost", q) || CostLoses(fields, "total_time_cost", q)
                 || CostLoses(fields, "total_parking_cost", q) || CostLoses(fields, "total_reservation_cost", q)
  {
    hide CostLoses;
    var names := COST_FIELDS;
    assert names[0] in names && names[1] in names && names[2] in names && names[3] in names && names[4] in names
           && names[5] in names;
  }

  lemma BookingReport(doc: Json, q: string)
    requires DecodeNewCdr(doc).Some?
    ensures q in When(DecodeNewCdr(doc).value.bookingId.Some?, "/booking_id")
            <==> q == "/booking_id" && !Absent(doc.fields, "booking_id")
  {
    hide Shared, NewPriceIn, Decoded;
  }

  lemma CdrReport(doc: Json, q: string)
    requires DecodeNewCdr(doc).Some?
    ensures q in CdrDown(DecodeNewCdr(doc).value).lossy <==> CdrLoses(doc, q)
  {
    CostsReport(doc, q);
    BookingReport(doc, q);
    TariffsOfCdr(doc, q);
    hide CostLoses, TariffsLose, DecodeNewCdr, CostDown, PriceDown, ConvertAll, Lift, When, Absent, COST_FIELDS;
  }

  lemma TariffsOfCdr(doc: Json, q: string)
    requires DecodeNewCdr(doc).Some?
    ensures doc.Object?
    ensures q in ConvertAll(TariffDown, DecodeNewCdr(doc).value.tariffs, "/tariffs/").lossy
            <==> TariffsLose(doc.fields, q)
  {
    hide Shared, NewPriceIn, Decoded, ConvertAll, TariffsLose, Optional, ItemsOrNone;
    TariffsReport(doc.fields, q);
  }

  // ---------------------------------------------------------------------------------------
  // Pages
  // ---------------------------------------------------------------------------------------

  /** The report of a page holds each item's losses under its index, and no others. */
  lemma {:induction false} PageLosses(kind: ObjectKind, items: seq<Json>, p: string)
    requires BridgedPage(kind, V2_3_0, V2_2_1, items).Ok?
    ensures forall i :: 0 <= i < |items| ==> BridgedOne(kind, V2_3_0, V2_2_1, items[i]).Ok?
    ensures p in BridgedPage(kind, V2_3_0, V2_2_1, items).value.lossy
            <==> exists i: nat, q: string :: IsAt("/", i, q, p) && i < |items|
                                             && q in BridgedOne(kind, V2_3_0, V2_2_1, items[i]).value.lossy
  {
    hide BridgedOne, Numeral;
    if items == [] {
    } else {
      var n := |items| - 1;
      PageLosses(kind, items[..n], p);
      var last := BridgedOne(kind, V2_3_0, V2_2_1, items[n]).value.lossy;
      LiftedIn("/" + Numeral(n), last, p);
      if p in Lift("/" + Numeral(n), last) {
        var r :| r in last && p == "/" + Numeral(n) + r;
        assert IsAt("/", n, r, p);
      }
      if i: nat, q: string :| IsAt("/", i, q, p) && i < |items|
                              && q in BridgedOne(kind, V2_3_0, V2_2_1, items[i]).value.lossy {
        if i < n {
          assert items[..n][i] == items[i];
        }
      }
    }
  }

  /** One object that goes down. */
  lemma ObjectLosses(kind: ObjectKind, doc: Json, q: string)
    requires kind.Tariff? || kind.Session? || kind.Cdr?
    requires BridgedOne(kind, V2_3_0, V2_2_1, doc).Ok?
    ensures q in BridgedOne(kind, V2_3_0, V2_2_1, doc).value.lossy <==> Loses(kind, doc, q)
  {
    hide DecodeNewTariff, DecodeNewSession, DecodeNewCdr, EncodeOldTariff, EncodeOldSession, EncodeOldCdr, TariffDown,
         SessionDown, CdrDown, TariffLoses, SessionLoses, CdrLoses, Up;
    match kind
    case Tariff => TariffReport(doc, q);
    case Session => SessionReport(doc, q);
    case Cdr => CdrReport(doc, q);
  }

  /**
   * The loss report of a page of Tariffs, Sessions or CDRs holds exactly what the documents say
   * and 2.2.1 cannot: statements about tax, preauthorised amounts, booking identifiers, and the
   * tax lines of a price that are not a single plain one, each under the index of its document.
   */
  lemma CostPageReport(kind: ObjectKind, items: seq<Json>, p: string)
    requires kind.Tariff? || kind.Session? || kind.Cdr?
    requires Bridged(kind, V2_3_0, V2_2_1, Array(items)).Ok?
    ensures p in Bridged(kind, V2_3_0, V2_2_1, Array(items)).value.lossy
            <==> exists i: nat, q: string :: IsAt("/", i, q, p) && i < |items| && Loses(kind, items[i], q)
  {
    hide BridgedPage, BridgedOne, Loses, Numeral;
    PageLosses(kind, items, p);
    forall i, q | 0 <= i < |items|
      ensures q in BridgedOne(kind, V2_3_0, V2_2_1, items[i]).value.lossy <==> Loses(kind, items[i], q)
    {
      ObjectLosses(kind, items[i], q);
    }
  }
}
