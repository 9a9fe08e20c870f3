/**
 * What is written is what is read back, and a 2.2.1 document that crosses to 2.3.0 and back is the
 * document it was.
 */
module Documents {
  import opened Wrappers
  import opened Json
  import opened Shapes
  import opened Codec
  import opened Convert
  import opened Wire
  import opened RoundTrip
  import Bridging
  import Objects
  import Old = Ocpi221
  import New = Ocpi230

  // ---------------------------------------------------------------------------------------
  // Lists
  // ---------------------------------------------------------------------------------------

  lemma {:induction false} ListReadsBack<T>(items: seq<T>, encode: T -> Json, decode: Json -> Option<T>)
    requires forall x :: x in items ==> decode(encode(x)) == Some(x)
    ensures DecodeAll(EncodeAll(items, encode), decode) == Some(items)
  {
    var docs := EncodeAll(items, encode);
    if items == [] {
      assert docs == [];
    } else {
      var n := |items| - 1;
      assert docs[..n] == EncodeAll(items[..n], encode);
      ListReadsBack(items[..n], encode, decode);
      assert items[n] in items;
      assert items == items[..n] + [items[n]];
    }
  }

  /** What a list member reads as, written only when the list is not empty. */
  lemma ListMemberReadsBack(name: string, items: seq<Json>)
    ensures ItemsOrNone(Get(ListMember(name, items), name)) == Some(items)
  {
  }

  // ---------------------------------------------------------------------------------------
  // Prices
  // ---------------------------------------------------------------------------------------

  /** A price without undocumented fields that a price or a price limit of either version spells out. */
  predicate CleanOldPrice(p: Old.Price) {
    p.rest.Keys !! PartFields(OldPricePart) + PartFields(NewPricePart) + PartFields(PriceLimitPart)
  }

  lemma OldPriceReadsBack(p: Old.Price)
    requires CleanOldPrice(p)
    ensures DecodeOldPrice(EncodeOldPrice(p)) == Some(p)
  {
    var fields := EncodeOldPrice(p).fields;
    assert Get(fields, "excl_vat") == Some(Number(p.exclVat));
    assert Get(fields, "incl_vat") == if p.inclVat.Some? then Some(Number(p.inclVat.value)) else None;
    assert fields - PartFields(OldPricePart) == p.rest;
  }

  predicate CleanTaxAmount(t: New.TaxAmount) {
    t.rest.Keys !! PartFields(TaxAmountPart)
  }

  lemma TaxAmountReadsBack(t: New.TaxAmount)
    requires CleanTaxAmount(t)
    ensures DecodeTaxAmount(EncodeTaxAmount(t)) == Some(t)
  {
    var fields := EncodeTaxAmount(t).fields;
    assert Get(fields, "name") == Some(Str(t.name));
    assert Get(fields, "account_number") == if t.accountNumber.Some? then Some(Str(t.accountNumber.value)) else None;
    assert Get(fields, "percentage") == if t.percentage.Some? then Some(Number(t.percentage.value)) else None;
    assert Get(fields, "amount") == Some(Number(t.amount));
    assert fields - PartFields(TaxAmountPart) == t.rest;
  }

  predicate CleanNewPrice(p: New.Price) {
    p.rest.Keys !! PartFields(NewPricePart) && forall t :: t in p.taxes ==> CleanTaxAmount(t)
  }

  lemma TaxesReadBack(taxes: seq<New.TaxAmount>)
    requires forall t :: t in taxes ==> CleanTaxAmount(t)
    ensures DecodeAll(EncodeAll(taxes, EncodeTaxAmount), DecodeTaxAmount) == Some(taxes)
  {
    hide DecodeTaxAmount, EncodeTaxAmount, CleanTaxAmount;
    forall t | t in taxes
      ensures DecodeTaxAmount(EncodeTaxAmount(t)) == Some(t)
    {
      TaxAmountReadsBack(t);
    }
    ListReadsBack(taxes, EncodeTaxAmount, DecodeTaxAmount);
  }

  lemma NewPriceReadsBack(p: New.Price)
    requires CleanNewPrice(p)
    ensures DecodeNewPrice(EncodeNewPrice(p)) == Some(p)
  {
    hide CleanTaxAmount, EncodeAll, DecodeAll, ItemsOrNone;
    TaxesReadBack(p.taxes);
    var (fields, taxes) := (EncodeNewPrice(p).fields, EncodeAll(p.taxes, EncodeTaxAmount));
    ListMemberReadsBack("taxes", taxes);
    assert Get(fields, "before_taxes") == Some(Number(p.beforeTaxes));
    assert Get(fields, "taxes") == Get(ListMember("taxes", taxes), "taxes");
    assert fields - PartFields(NewPricePart) == p.rest;
  }

  predicate CleanPriceLimit(p: New.PriceLimit) {
    p.rest.Keys !! PartFields(PriceLimitPart)
  }

  lemma PriceLimitReadsBack(p: New.PriceLimit)
    requires CleanPriceLimit(p)
    ensures DecodePriceLimit(EncodePriceLimit(p)) == Some(p)
  {
    var fields := EncodePriceLimit(p).fields;
    assert Get(fields, "before_taxes") == Some(Number(p.beforeTaxes));
    assert Get(fields, "after_taxes") == if p.afterTaxes.Some? then Some(Number(p.afterTaxes.value)) else None;
    assert fields - PartFields(PriceLimitPart) == p.rest;
  }

  // ---------------------------------------------------------------------------------------
  // Members
  // ---------------------------------------------------------------------------------------

  /** Kept members as they are written, none of which either version spells out. */
  predicate CleanRest(kind: ObjectKind, rest: Fields) {
    rest.Keys !! DivergentFields(kind) && Shared(kind, rest) == Some(rest)
  }

  /** Taking away the spelled-out fields of a version leaves the kept members. */
  lemma RestReadsBack(kind: ObjectKind, own: Fields, rest: Fields, up: bool)
    requires CleanRest(kind, rest) && own.Keys <= SpelledOut(kind, up)
    ensures (own + rest) - SpelledOut(kind, up) == rest
    ensures forall n :: n in DivergentFields(kind) ==> Get(own + rest, n) == Get(own, n)
  {
    Bridging.SpelledOutDiverge(kind, up);
    hide DivergentFields, SpelledOut, Shared;
  }

  lemma NumberReadsBack(name: string, x: Option<real>)
    ensures Optional(Get(NumberMember(name, x), name), NumberOf) == Some(x)
  {
  }

  lemma TextReadsBack(name: string, x: Option<string>)
    ensures Optional(Get(TextMember(name, x), name), TextOf) == Some(x)
  {
  }

  predicate CleanOldPriceCost(p: Option<Old.Price>) {
    p.Some? ==> CleanOldPrice(p.value)
  }

  lemma OldPriceReadsBackIn(name: string, p: Option<Old.Price>)
    requires CleanOldPriceCost(p)
    ensures Optional(Get(OldPriceMember(name, p), name), OldPriceIn) == Some(p)
  {
    hide CleanOldPrice, EncodeOldPrice, DecodeOldPrice;
    if p.Some? {
      OldPriceReadsBack(p.value);
      assert !EncodeOldPrice(p.value).Null? by {
        EncodedIsOldPrice(p.value);
      }
    }
  }

  lemma EncodedIsOldPrice(p: Old.Price)
    ensures EncodeOldPrice(p).Object?
  {
  }

  predicate CleanNewPriceCost(p: Option<New.Price>) {
    p.Some? ==> CleanNewPrice(p.value)
  }

  lemma NewPriceReadsBackIn(name: string, p: Option<New.Price>)
    requires CleanNewPriceCost(p)
    ensures Optional(Get(NewPriceMember(name, p), name), NewPriceIn) == Some(p)
  {
    hide CleanNewPrice, EncodeNewPrice, DecodeNewPrice;
    if p.Some? {
      NewPriceReadsBack(p.value);
      assert !EncodeNewPrice(p.value).Null? by {
        EncodedIsNewPrice(p.value);
      }
    }
  }

  lemma EncodedIsNewPrice(p: New.Price)
    ensures EncodeNewPrice(p).Object?
  {
  }

  predicate CleanPriceLimitCost(p: Option<New.PriceLimit>) {
    p.Some? ==> CleanPriceLimit(p.value)
  }

  lemma PriceLimitReadsBackIn(name: string, p: Option<New.PriceLimit>)
    requires CleanPriceLimitCost(p)
    ensures Optional(Get(PriceLimitMember(name, p), name), PriceLimitIn) == Some(p)
  {
    hide CleanPriceLimit, EncodePriceLimit, DecodePriceLimit;
    if p.Some? {
      PriceLimitReadsBack(p.value);
      assert !EncodePriceLimit(p.value).Null? by {
        EncodedIsPriceLimit(p.value);
      }
    }
  }

  lemma EncodedIsPriceLimit(p: New.PriceLimit)
    ensures EncodePriceLimit(p).Object?
  {
  }

  // ---------------------------------------------------------------------------------------
  // Locations
  // ---------------------------------------------------------------------------------------

  predicate CleanOldConnector(c: Old.Connector) {
    CleanRest(Connector, c.rest)
  }

  predicate CleanNewConnector(c: New.Connector) {
    CleanRest(Connector, c.rest)
  }

  predicate CleanOldEvse(e: Old.Evse) {
    CleanRest(Evse, e.rest) && forall c :: c in e.connectors ==> CleanOldConnector(c)
  }

  predicate CleanNewEvse(e: New.Evse) {
    CleanRest(Evse, e.rest) && forall c :: c in e.connectors ==> CleanNewConnector(c)
  }

  predicate CleanOldLocation(l: Old.Location) {
    CleanRest(Location, l.rest) && forall e :: e in l.evses ==> CleanOldEvse(e)
  }

  predicate CleanNewLocation(l: New.Location) {
    CleanRest(Location, l.rest) && forall e :: e in l.evses ==> CleanNewEvse(e)
  }

  lemma OldConnectorReadsBack(c: Old.Connector)
    requires CleanOldConnector(c)
    ensures DecodeOldConnector(EncodeOldConnector(c)) == Some(c)
  {
  }

  lemma NewConnectorReadsBack(c: New.Connector)
    requires CleanNewConnector(c)
    ensures DecodeNewConnector(EncodeNewConnector(c)) == Some(c)
  {
    RestReadsBack(Connector, NewConnectorMembers(c), c.rest, false);
    ListMemberReadsBack("capabilities", c.capabilities);
    assert "capabilities" in DivergentFields(Connector);
    hide Shared, ItemsOrNone, ListMember, CleanRest;
  }

  lemma OldConnectorsReadBack(items: seq<Old.Connector>)
    requires forall x :: x in items ==> CleanOldConnector(x)
    ensures DecodeAll(EncodeAll(items, EncodeOldConnector), DecodeOldConnector) == Some(items)
  {
    hide DecodeOldConnector, EncodeOldConnector, CleanOldConnector;
    forall x | x in items
      ensures DecodeOldConnector(EncodeOldConnector(x)) == Some(x)
    {
      OldConnectorReadsBack(x);
    }
    ListReadsBack(items, EncodeOldConnector, DecodeOldConnector);
  }

  lemma OldEvseReadsBack(x: Old.Evse)
    requires CleanOldEvse(x)
    ensures DecodeOldEvse(EncodeOldEvse(x)) == Some(x)
  {
    hide Shared, CleanOldConnector, EncodeAll, DecodeAll, ItemsOrNone, Optional;
    var (own, items) := (OldEvseMembers(x), EncodeAll(x.connectors, EncodeOldConnector));
    OldConnectorsReadBack(x.connectors);
    RestReadsBack(Evse, own, x.rest, true);
    assert Get(own, "connectors") == Some(Array(items));
  }

  lemma OldEvsesReadBack(items: seq<Old.Evse>)
    requires forall x :: x in items ==> CleanOldEvse(x)
    ensures DecodeAll(EncodeAll(items, EncodeOldEvse), DecodeOldEvse) == Some(items)
  {
    hide DecodeOldEvse, EncodeOldEvse, CleanOldEvse;
    forall x | x in items
      ensures DecodeOldEvse(EncodeOldEvse(x)) == Some(x)
    {
      OldEvseReadsBack(x);
    }
    ListReadsBack(items, EncodeOldEvse, DecodeOldEvse);
  }

  lemma OldLocationReadsBack(x: Old.Location)
    requires CleanOldLocation(x)
    ensures DecodeOldLocation(EncodeOldLocation(x)) == Some(x)
  {
    hide Shared, CleanOldEvse, EncodeAll, DecodeAll, ItemsOrNone, Optional;
    var (own, items) := (OldLocationMembers(x), EncodeAll(x.evses, EncodeOldEvse));
    OldEvsesReadBack(x.evses);
    RestReadsBack(Location, own, x.rest, true);
    ListMemberReadsBack("evses", items);
    assert Get(own, "evses") == Get(ListMember("evses", items), "evses");
  }

  lemma NewConnectorsReadBack(items: seq<New.Connector>)
    requires forall x :: x in items ==> CleanNewConnector(x)
    ensures DecodeAll(EncodeAll(items, EncodeNewConnector), DecodeNewConnector) == Some(items)
  {
    hide DecodeNewConnector, EncodeNewConnector, CleanNewConnector;
    forall x | x in items
      ensures DecodeNewConnector(EncodeNewConnector(x)) == Some(x)
    {
      NewConnectorReadsBack(x);
    }
    ListReadsBack(items, EncodeNewConnector, DecodeNewConnector);
  }

  lemma NewEvseReadsBack(x: New.Evse)
    requires CleanNewEvse(x)
    ensures DecodeNewEvse(EncodeNewEvse(x)) == Some(x)
  {
    hide Shared, CleanNewConnector, EncodeAll, DecodeAll, ItemsOrNone, Optional;
    var (own, items) := (NewEvseMembers(x), EncodeAll(x.connectors, EncodeNewConnector));
    NewConnectorsReadBack(x.connectors);
    RestReadsBack(Evse, own, x.rest, false);
    assert Get(own, "connectors") == Some(Array(items));
    ListMemberReadsBack("parking", x.parking);
    assert Get(own, "parking") == Get(ListMember("parking", x.parking), "parking");
    ListMemberReadsBack("accepted_service_providers", x.acceptedServiceProviders);
    assert Get(own, "accepted_service_providers")
           == Get(ListMember("accepted_service_providers", x.acceptedServiceProviders), "accepted_service_providers");
  }

  lemma NewEvsesReadBack(items: seq<New.Evse>)
    requires forall x :: x in items ==> CleanNewEvse(x)
    ensures DecodeAll(EncodeAll(items, EncodeNewEvse), DecodeNewEvse) == Some(items)
  {
    hide DecodeNewEvse, EncodeNewEvse, CleanNewEvse;
    forall x | x in items
      ensures DecodeNewEvse(EncodeNewEvse(x)) == Some(x)
    {
      NewEvseReadsBack(x);
    }
    ListReadsBack(items, EncodeNewEvse, DecodeNewEvse);
  }

  lemma NewLocationReadsBack(x: New.Location)
    requires CleanNewLocation(x)
    ensures DecodeNewLocation(EncodeNewLocation(x)) == Some(x)
  {
    hide Shared, CleanNewEvse, EncodeAll, DecodeAll, ItemsOrNone, Optional;
    var (own, items) := (NewLocationMembers(x), EncodeAll(x.evses, EncodeNewEvse));
    NewEvsesReadBack(x.evses);
    RestReadsBack(Location, own, x.rest, false);
    ListMemberReadsBack("evses", items);
    assert Get(own, "evses") == Get(ListMember("evses", items), "evses");
    ListMemberReadsBack("parking_places", x.parkingPlaces);
    assert Get(own, "parking_places") == Get(ListMember("parking_places", x.parkingPlaces), "parking_places");
    TextReadsBack("help_phone", x.helpPhone);
    assert Get(own, "help_phone") == Get(TextMember("help_phone", x.helpPhone), "help_phone");
  }

  // ---------------------------------------------------------------------------------------
  // Tariffs, sessions and CDRs
  // ---------------------------------------------------------------------------------------

  predicate CleanOldTariff(t: Old.Tariff) {
    CleanRest(Tariff, t.rest) && CleanOldPriceCost(t.minPrice) && CleanOldPriceCost(t.maxPrice)
  }

  predicate CleanNewTariff(t: New.Tariff) {
    CleanRest(Tariff, t.rest) && CleanPriceLimitCost(t.minPrice) && CleanPriceLimitCost(t.maxPrice)
  }

  predicate CleanOldSession(s: Old.Session) {
    CleanRest(Session, s.rest) && CleanOldPriceCost(s.totalCost)
  }

  predicate CleanNewSession(s: New.Session) {
    CleanRest(Session, s.rest) && CleanNewPriceCost(s.totalCost)
  }

  predicate CleanOldCdr(c: Old.Cdr) {
    && CleanRest(Cdr, c.rest)
    && (forall t :: t in c.tariffs ==> CleanOldTariff(t))
    && CleanOldPrice(c.totalCost) && CleanOldPriceCost(c.totalFixedCost) && CleanOldPriceCost(c.totalEnergyCost)
    && CleanOldPriceCost(c.totalTimeCost) && CleanOldPriceCost(c.totalParkingCost)
        && CleanOldPriceCost(c.totalReservationCost)
  }

  predicate CleanNewCdr(c: New.Cdr) {
    && CleanRest(Cdr, c.rest)
    && (forall t :: t in c.tariffs ==> CleanNewTariff(t))
    && CleanNewPrice(c.totalCost) && CleanNewPriceCost(c.totalFixedCost) && CleanNewPriceCost(c.totalEnergyCost)
    && CleanNewPriceCost(c.totalTimeCost) && CleanNewPriceCost(c.totalParkingCost)
        && CleanNewPriceCost(c.totalReservationCost)
  }

  // Members laid over one another, each with its own name.

  function Union(parts: seq<Fields>): Fields {
    if parts == [] then map[] else Union(parts[..|parts| - 1]) + parts[|parts| - 1]
  }

  lemma UnionStep(parts: seq<Fields>, last: Fields)
    ensures Union(parts + [last]) == Union(parts) + last
  {
    assert (parts + [last])[..|parts|] == parts;
  }

  lemma UnionOfFour(a: Fields, b: Fields, c: Fields, d: Fields)
    ensures Union([a, b, c, d]) == a + b + c + d
  {
    assert [a, b, c, d][..3] == [a, b, c] && [a, b, c][..2] == [a, b] && [a, b][..1] == [a] && [a][..0] == [];
    assert Union([a]) == map[] + a == a;
    assert Union([a, b]) == a + b;
    assert Union([a, b, c]) == a + b + c;
  }

  lemma UnionOfSeven(a: Fields, b: Fields, c: Fields, d: Fields, e: Fields, f: Fields, g: Fields)
    ensures Union([a, b, c, d, e, f, g]) == a + b + c + d + e + f + g
  {
    UnionOfFour(a, b, c, d);
    hide Union;
    UnionStep([a, b, c, d], e);
    assert [a, b, c, d] + [e] == [a, b, c, d, e];
    UnionStep([a, b, c, d, e], f);
    assert [a, b, c, d, e] + [f] == [a, b, c, d, e, f];
    UnionStep([a, b, c, d, e, f], g);
    assert [a, b, c, d, e, f] + [g] == [a, b, c, d, e, f, g];
  }

  predicate Different(names: seq<string>) {
    forall i, j :: 0 <= i < j < |names| ==> names[i] != names[j]
  }

  predicate Named(names: seq<string>, parts: seq<Fields>) {
    |names| == |parts| && forall i :: 0 <= i < |parts| ==> parts[i].Keys <= {names[i]}
  }

  lemma {:induction false} InUnion(names: seq<string>, parts: seq<Fields>, i: nat)
    requires Different(names) && Named(names, parts) && i < |parts|
    ensures Get(Union(parts), names[i]) == Get(parts[i], names[i])
  {
    var n := |parts| - 1;
    if i < n {
      InUnion(names[..n], parts[..n], i);
    } else {
      NotInUnion(names[..n], parts[..n], names[n]);
    }
  }

  lemma {:induction false} NotInUnion(names: seq<string>, parts: seq<Fields>, name: string)
    requires Named(names, parts) && name !in names
    ensures name !in Union(parts)
  {
    if parts == [] {
    } else {
      var n := |parts| - 1;
      NotInUnion(names[..n], parts[..n], name);
      assert names[n] in names;
    }
  }

  lemma TaxIncludedReadsBack(t: New.Tariff)
    ensures TaxIncludedIn(Some(TaxIncludedText(t.taxIncluded))) == Some(t.taxIncluded)
  {
  }

  lemma OldTariffReadsBack(t: Old.Tariff)
    requires CleanOldTariff(t)
    ensures DecodeOldTariff(EncodeOldTariff(t)) == Some(t)
  {
    hide Shared, Optional, OldPriceMember, NumberMember, TaxIncludedIn, TaxIncludedText, CleanOldPriceCost;
    var own := OldTariffMembers(t);
    RestReadsBack(Tariff, own, t.rest, true);
    OldPriceReadsBackIn("min_price", t.minPrice);
    assert Get(own, "min_price") == Get(OldPriceMember("min_price", t.minPrice), "min_price");
    OldPriceReadsBackIn("max_price", t.maxPrice);
    assert Get(own, "max_price") == Get(OldPriceMember("max_price", t.maxPrice), "max_price");
  }

  lemma OldTariffsReadBack(items: seq<Old.Tariff>)
    requires forall x :: x in items ==> CleanOldTariff(x)
    ensures DecodeAll(EncodeAll(items, EncodeOldTariff), DecodeOldTariff) == Some(items)
  {
    hide DecodeOldTariff, EncodeOldTariff, CleanOldTariff;
    forall x | x in items
      ensures DecodeOldTariff(EncodeOldTariff(x)) == Some(x)
    {
      OldTariffReadsBack(x);
    }
    ListReadsBack(items, EncodeOldTariff, DecodeOldTariff);
  }

  lemma OldSessionReadsBack(s: Old.Session)
    requires CleanOldSession(s)
    ensures DecodeOldSession(EncodeOldSession(s)) == Some(s)
  {
    hide Shared, Optional, OldPriceMember, CleanOldPriceCost;
    RestReadsBack(Session, OldSessionMembers(s), s.rest, true);
    OldPriceReadsBackIn("total_cost", s.totalCost);
  }

  lemma NewTariffReadsBack(t: New.Tariff)
    requires CleanNewTariff(t)
    ensures DecodeNewTariff(EncodeNewTariff(t)) == Some(t)
  {
    hide Shared, Optional, PriceLimitMember, NumberMember, TaxIncludedIn, TaxIncludedText,
         CleanPriceLimitCost;
    var own := NewTariffMembers(t);
    RestReadsBack(Tariff, own, t.rest, false);
    PriceLimitReadsBackIn("min_price", t.minPrice);
    assert Get(own, "min_price") == Get(PriceLimitMember("min_price", t.minPrice), "min_price");
    PriceLimitReadsBackIn("max_price", t.maxPrice);
    assert Get(own, "max_price") == Get(PriceLimitMember("max_price", t.maxPrice), "max_price");
    NumberReadsBack("preauthorize_amount", t.preauthorizeAmount);
    assert Get(own, "preauthorize_amount")
           == Get(NumberMember("preauthorize_amount", t.preauthorizeAmount), "preauthorize_amount");
    assert Get(own, "tax_included") == Some(TaxIncludedText(t.taxIncluded));
    TaxIncludedReadsBack(t);
  }

  lemma NewTariffsReadBack(items: seq<New.Tariff>)
    requires forall x :: x in items ==> CleanNewTariff(x)
    ensures DecodeAll(EncodeAll(items, EncodeNewTariff), DecodeNewTariff) == Some(items)
  {
    hide DecodeNewTariff, EncodeNewTariff, CleanNewTariff;
    forall x | x in items
      ensures DecodeNewTariff(EncodeNewTariff(x)) == Some(x)
    {
      NewTariffReadsBack(x);
    }
    ListReadsBack(items, EncodeNewTariff, DecodeNewTariff);
  }

  lemma NewSessionReadsBack(s: New.Session)
    requires CleanNewSession(s)
    ensures DecodeNewSession(EncodeNewSession(s)) == Some(s)
  {
    hide Shared, Optional, NewPriceMember, CleanNewPriceCost;
    RestReadsBack(Session, NewSessionMembers(s), s.rest, false);
    NewPriceReadsBackIn("total_cost", s.totalCost);
  }

  /** Each spelled-out member of a CDR is written under its own name. */
  lemma OldCdrMembersApart(c: Old.Cdr)
    ensures var own := OldCdrMembers(c);
            && Get(own, "tariffs") == Get(ListMember("tariffs", EncodeAll(c.tariffs, EncodeOldTariff)), "tariffs")
            && Get(own, "total_cost") == Some(EncodeOldPrice(c.totalCost))
            && Get(own, "total_fixed_cost")
                == Get(OldPriceMember("total_fixed_cost", c.totalFixedCost), "total_fixed_cost")
            && Get(own, "total_energy_cost")
                == Get(OldPriceMember("total_energy_cost", c.totalEnergyCost), "total_energy_cost")
            && Get(own, "total_time_cost") == Get(OldPriceMember("total_time_cost", c.totalTimeCost), "total_time_cost")
            && Get(own, "total_parking_cost")
                == Get(OldPriceMember("total_parking_cost", c.totalParkingCost), "total_parking_cost")
            && Get(own, "total_reservation_cost")
                == Get(OldPriceMember("total_reservation_cost", c.totalReservationCost), "total_reservation_cost")
  {
    hide *;
    var names := OldCdrNames();
    var parts := OldCdrParts(c);
    OldCdrIsUnion(c);
    OldCdrNamesDiffer();
    OldCdrPartsNamed(c);
    OldCdrPartsAre(c);
    InUnion(names, parts, 0);
    InUnion(names, parts, 1);
    InUnion(names, parts, 2);
    InUnion(names, parts, 3);
    InUnion(names, parts, 4);
    InUnion(names, parts, 5);
    InUnion(names, parts, 6);
  }

  function OldCdrNames(): seq<string> {
    ["tariffs", "total_cost", "total_fixed_cost", "total_energy_cost",
     "total_time_cost", "total_parking_cost", "total_reservation_cost"]
  }

  function OldCdrParts(c: Old.Cdr): seq<Fields> {
    [ListMember("tariffs", EncodeAll(c.tariffs, EncodeOldTariff)),
     map["total_cost" := EncodeOldPrice(c.totalCost)],
     OldPriceMember("total_fixed_cost", c.totalFixedCost),
     OldPriceMember("total_energy_cost", c.totalEnergyCost),
     OldPriceMember("total_time_cost", c.totalTimeCost),
     OldPriceMember("total_parking_cost", c.totalParkingCost),
     OldPriceMember("total_reservation_cost", c.totalReservationCost)]
  }

  lemma OldCdrNamesDiffer()
    ensures Different(OldCdrNames())
  {
  }

  lemma OldCdrIsUnion(c: Old.Cdr)
    ensures OldCdrMembers(c) == Union(OldCdrParts(c))
  {
    hide EncodeAll, EncodeOldPrice, OldPriceMember, ListMember, TextMember, Union;
    var parts := OldCdrParts(c);
    UnionOfSeven(parts[0], parts[1], parts[2], parts[3], parts[4], parts[5], parts[6]);
  }

  lemma OldCdrPartsNamed(c: Old.Cdr)
    ensures Named(OldCdrNames(), OldCdrParts(c))
  {
    hide EncodeAll, EncodeOldPrice, OldPriceMember, ListMember, TextMember;
  }

  lemma OldCdrPartsAre(c: Old.Cdr)
    ensures |OldCdrNames()| == 7 && |OldCdrParts(c)| == 7
    ensures OldCdrNames()[0] == "tariffs"
            && OldCdrParts(c)[0] == ListMember("tariffs", EncodeAll(c.tariffs, EncodeOldTariff))
    ensures OldCdrNames()[1] == "total_cost" && OldCdrParts(c)[1] == map["total_cost" := EncodeOldPrice(c.totalCost)]
    ensures OldCdrNames()[2] == "total_fixed_cost"
            && OldCdrParts(c)[2] == OldPriceMember("total_fixed_cost", c.totalFixedCost)
    ensures OldCdrNames()[3] == "total_energy_cost"
            && OldCdrParts(c)[3] == OldPriceMember("total_energy_cost", c.totalEnergyCost)
    ensures OldCdrNames()[4] == "total_time_cost"
            && OldCdrParts(c)[4] == OldPriceMember("total_time_cost", c.totalTimeCost)
    ensures OldCdrNames()[5] == "total_parking_cost"
            && OldCdrParts(c)[5] == OldPriceMember("total_parking_cost", c.totalParkingCost)
    ensures OldCdrNames()[6] == "total_reservation_cost"
            && OldCdrParts(c)[6] == OldPriceMember("total_reservation_cost", c.totalReservationCost)
    ensures Get(map["total_cost" := EncodeOldPrice(c.totalCost)], "total_cost") == Some(EncodeOldPrice(c.totalCost))
  {
  }

  lemma OldCdrReadsBack(c: Old.Cdr)
    requires CleanOldCdr(c)
    ensures DecodeOldCdr(EncodeOldCdr(c)) == Some(c)
  {
    hide Shared, Optional, OldPriceMember, ListMember, TextMember, EncodeAll, DecodeAll, ItemsOrNone,
         CleanOldPrice, CleanOldPriceCost, CleanOldTariff, OldCdrMembers, EncodeOldPrice, DecodeOldPrice;
    var own := OldCdrMembers(c);
    OldCdrWrites(c);
    OldCdrMembersApart(c);
    OldCdrFieldsAre(c);
    RestReadsBack(Cdr, own, c.rest, true);
    hide DivergentFields, CleanRest;
    OldTariffsReadBack(c.tariffs);
    ListMemberReadsBack("tariffs", EncodeAll(c.tariffs, EncodeOldTariff));
    OldPriceReadsBack(c.totalCost);
    OldPriceReadsBackIn("total_fixed_cost", c.totalFixedCost);
    OldPriceReadsBackIn("total_energy_cost", c.totalEnergyCost);
    OldPriceReadsBackIn("total_time_cost", c.totalTimeCost);
    OldPriceReadsBackIn("total_parking_cost", c.totalParkingCost);
    OldPriceReadsBackIn("total_reservation_cost", c.totalReservationCost);
  }

  lemma OldCdrFieldsAre(c: Old.Cdr)
    ensures {"tariffs", "total_cost", "total_fixed_cost", "total_energy_cost",
             "total_time_cost", "total_parking_cost", "total_reservation_cost"} <= DivergentFields(Cdr)
    ensures OldCdrMembers(c).Keys <= OldFields(Cdr)
  {
    hide EncodeAll, EncodeOldPrice, OldPriceMember, ListMember, TextMember;
  }

  /** Each spelled-out member of a CDR is written under its own name. */
  lemma NewCdrMembersApart(c: New.Cdr)
    ensures var own := NewCdrMembers(c);
            && Get(own, "tariffs") == Get(ListMember("tariffs", EncodeAll(c.tariffs, EncodeNewTariff)), "tariffs")
            && Get(own, "total_cost") == Some(EncodeNewPrice(c.totalCost))
            && Get(own, "total_fixed_cost")
                == Get(NewPriceMember("total_fixed_cost", c.totalFixedCost), "total_fixed_cost")
            && Get(own, "total_energy_cost")
                == Get(NewPriceMember("total_energy_cost", c.totalEnergyCost), "total_energy_cost")
            && Get(own, "total_time_cost") == Get(NewPriceMember("total_time_cost", c.totalTimeCost), "total_time_cost")
            && Get(own, "total_parking_cost")
                == Get(NewPriceMember("total_parking_cost", c.totalParkingCost), "total_parking_cost")
            && Get(own, "total_reservation_cost")
                == Get(NewPriceMember("total_reservation_cost", c.totalReservationCost), "total_reservation_cost")
            && Get(own, "booking_id") == Get(TextMember("booking_id", c.bookingId), "booking_id")
  {
    hide *;
    var names := NewCdrNames();
    var parts := NewCdrParts(c);
    NewCdrIsUnion(c);
    NewCdrNamesDiffer();
    NewCdrPartsNamed(c);
    NewCdrPartsAre(c);
    InUnion(names, parts, 0);
    InUnion(names, parts, 1);
    InUnion(names, parts, 2);
    InUnion(names, parts, 3);
    InUnion(names, parts, 4);
    InUnion(names, parts, 5);
    InUnion(names, parts, 6);
    InUnion(names, parts, 7);
  }

  function NewCdrNames(): seq<string> {
    ["tariffs", "total_cost", "total_fixed_cost", "total_energy_cost",
     "total_time_cost", "total_parking_cost", "total_reservation_cost", "booking_id"]
  }

  function NewCdrParts(c: New.Cdr): seq<Fields> {
    [ListMember("tariffs", EncodeAll(c.tariffs, EncodeNewTariff)),
     map["total_cost" := EncodeNewPrice(c.totalCost)],
     NewPriceMember("total_fixed_cost", c.totalFixedCost),
     NewPriceMember("total_energy_cost", c.totalEnergyCost),
     NewPriceMember("total_time_cost", c.totalTimeCost),
     NewPriceMember("total_parking_cost", c.totalParkingCost),
     NewPriceMember("total_reservation_cost", c.totalReservationCost),
     TextMember("booking_id", c.bookingId)]
  }

  lemma NewCdrNamesDiffer()
    ensures Different(NewCdrNames())
  {
  }

  lemma NewCdrIsUnion(c: New.Cdr)
    ensures NewCdrMembers(c) == Union(NewCdrParts(c))
  {
    hide EncodeAll, EncodeNewPrice, NewPriceMember, ListMember, TextMember, Union;
    var parts := NewCdrParts(c);
    UnionOfSeven(parts[0], parts[1], parts[2], parts[3], parts[4], parts[5], parts[6]);
    UnionStep(parts[..7], parts[7]);
    assert parts[..7] == [parts[0], parts[1], parts[2], parts[3], parts[4], parts[5], parts[6]];
    assert parts[..7] + [parts[7]] == parts;
  }

  lemma NewCdrPartsNamed(c: New.Cdr)
    ensures Named(NewCdrNames(), NewCdrParts(c))
  {
    hide EncodeAll, EncodeNewPrice, NewPriceMember, ListMember, TextMember;
  }

  lemma NewCdrPartsAre(c: New.Cdr)
    ensures |NewCdrNames()| == 8 && |NewCdrParts(c)| == 8
    ensures NewCdrNames()[0] == "tariffs"
            && NewCdrParts(c)[0] == ListMember("tariffs", EncodeAll(c.tariffs, EncodeNewTariff))
    ensures NewCdrNames()[1] == "total_cost" && NewCdrParts(c)[1] == map["total_cost" := EncodeNewPrice(c.totalCost)]
    ensures NewCdrNames()[2] == "total_fixed_cost"
            && NewCdrParts(c)[2] == NewPriceMember("total_fixed_cost", c.totalFixedCost)
    ensures NewCdrNames()[3] == "total_energy_cost"
            && NewCdrParts(c)[3] == NewPriceMember("total_energy_cost", c.totalEnergyCost)
    ensures NewCdrNames()[4] == "total_time_cost"
            && NewCdrParts(c)[4] == NewPriceMember("total_time_cost", c.totalTimeCost)
    ensures NewCdrNames()[5] == "total_parking_cost"
            && NewCdrParts(c)[5] == NewPriceMember("total_parking_cost", c.totalParkingCost)
    ensures NewCdrNames()[6] == "total_reservation_cost"
            && NewCdrParts(c)[6] == NewPriceMember("total_reservation_cost", c.totalReservationCost)
    ensures NewCdrNames()[7] == "booking_id" && NewCdrParts(c)[7] == TextMember("booking_id", c.bookingId)
    ensures Get(map["total_cost" := EncodeNewPrice(c.totalCost)], "total_cost") == Some(EncodeNewPrice(c.totalCost))
  {
  }

  lemma NewCdrReadsBack(c: New.Cdr)
    requires CleanNewCdr(c)
    ensures DecodeNewCdr(EncodeNewCdr(c)) == Some(c)
  {
    hide Shared, Optional, NewPriceMember, ListMember, TextMember, EncodeAll, DecodeAll, ItemsOrNone,
         CleanNewPrice, CleanNewPriceCost, CleanNewTariff, NewCdrMembers, EncodeNewPrice, DecodeNewPrice;
    var own := NewCdrMembers(c);
    NewCdrWrites(c);
    NewCdrMembersApart(c);
    NewCdrFieldsAre(c);
    RestReadsBack(Cdr, own, c.rest, false);
    hide DivergentFields, CleanRest;
    NewTariffsReadBack(c.tariffs);
    ListMemberReadsBack("tariffs", EncodeAll(c.tariffs, EncodeNewTariff));
    NewPriceReadsBack(c.totalCost);
    NewPriceReadsBackIn("total_fixed_cost", c.totalFixedCost);
    NewPriceReadsBackIn("total_energy_cost", c.totalEnergyCost);
    NewPriceReadsBackIn("total_time_cost", c.totalTimeCost);
    NewPriceReadsBackIn("total_parking_cost", c.totalParkingCost);
    NewPriceReadsBackIn("total_reservation_cost", c.totalReservationCost);
    TextReadsBack("booking_id", c.bookingId);
  }

  lemma NewCdrFieldsAre(c: New.Cdr)
    ensures {"tariffs", "total_cost", "total_fixed_cost", "total_energy_cost",
             "total_time_cost", "total_parking_cost", "total_reservation_cost", "booking_id"} <= DivergentFields(Cdr)
    ensures NewCdrMembers(c).Keys <= NewFields(Cdr)
  {
    hide EncodeAll, EncodeNewPrice, NewPriceMember, ListMember, TextMember;
  }

  // ---------------------------------------------------------------------------------------
  // Credentials and client info
  // ---------------------------------------------------------------------------------------

  lemma OldRoleReadsBack(r: Old.Role)
    ensures OldRoleIn(Some(Str(OldRoleText(r)))) == Some(r)
  {
  }

  lemma NewRoleReadsBack(r: New.Role)
    ensures NewRoleIn(Some(Str(NewRoleText(r)))) == Some(r)
  {
  }

  predicate CleanOldRoleEntry(r: Old.CredentialsRole) {
    r.rest.Keys !! PartFields(RoleEntryPart) && Tidy(Objects.BusinessDetails(), r.businessDetails)
  }

  predicate CleanOldCredentials(c: Old.Credentials) {
    CleanRest(Credentials, c.rest) && forall r :: r in c.roles ==> CleanOldRoleEntry(r)
  }

  lemma OldRoleEntryReadsBack(r: Old.CredentialsRole)
    requires CleanOldRoleEntry(r)
    ensures DecodeOldRoleEntry(EncodeOldRoleEntry(r)) == Some(r)
  {
    hide OldRoleIn, OldRoleText;
    OldRoleReadsBack(r.role);
    var fields := EncodeOldRoleEntry(r).fields;
    assert Get(fields, "role") == Some(Str(OldRoleText(r.role)));
    assert Get(fields, "business_details") == Some(r.businessDetails);
    assert Get(fields, "party_id") == Some(Str(r.partyId));
    assert Get(fields, "country_code") == Some(Str(r.countryCode));
    assert fields - PartFields(RoleEntryPart) == r.rest;
  }

  lemma OldCredentialsReadsBack(c: Old.Credentials)
    requires CleanOldCredentials(c)
    ensures DecodeOldCredentials(EncodeOldCredentials(c)) == Some(c)
  {
    hide Shared, CleanOldRoleEntry, EncodeOldRoleEntry, DecodeOldRoleEntry, EncodeAll, DecodeAll, Optional;
    forall r | r in c.roles
      ensures DecodeOldRoleEntry(EncodeOldRoleEntry(r)) == Some(r)
    {
      OldRoleEntryReadsBack(r);
    }
    ListReadsBack(c.roles, EncodeOldRoleEntry, DecodeOldRoleEntry);
    var own := OldCredentialsMembers(c);
    RestReadsBack(Credentials, own, c.rest, true);
    assert Get(own, "roles") == Some(Array(EncodeAll(c.roles, EncodeOldRoleEntry)));
  }

  lemma OldClientInfoReadsBack(c: Old.ClientInfo)
    requires CleanRest(ClientInfo, c.rest)
    ensures DecodeOldClientInfo(EncodeOldClientInfo(c)) == Some(c)
  {
    hide Shared, OldRoleIn, OldRoleText;
    OldRoleReadsBack(c.role);
    RestReadsBack(ClientInfo, OldClientInfoMembers(c), c.rest, true);
    assert Get(OldClientInfoMembers(c), "role") == Some(Str(OldRoleText(c.role)));
  }

  predicate CleanNewRoleEntry(r: New.CredentialsRole) {
    r.rest.Keys !! PartFields(RoleEntryPart) && Tidy(Objects.BusinessDetails(), r.businessDetails)
  }

  predicate CleanNewCredentials(c: New.Credentials) {
    CleanRest(Credentials, c.rest) && forall r :: r in c.roles ==> CleanNewRoleEntry(r)
  }

  lemma NewRoleEntryReadsBack(r: New.CredentialsRole)
    requires CleanNewRoleEntry(r)
    ensures DecodeNewRoleEntry(EncodeNewRoleEntry(r)) == Some(r)
  {
    hide NewRoleIn, NewRoleText;
    NewRoleReadsBack(r.role);
    var fields := EncodeNewRoleEntry(r).fields;
    assert Get(fields, "role") == Some(Str(NewRoleText(r.role)));
    assert Get(fields, "business_details") == Some(r.businessDetails);
    assert Get(fields, "party_id") == Some(Str(r.partyId));
    assert Get(fields, "country_code") == Some(Str(r.countryCode));
    assert fields - PartFields(RoleEntryPart) == r.rest;
  }

  lemma NewCredentialsReadsBack(c: New.Credentials)
    requires CleanNewCredentials(c)
    ensures DecodeNewCredentials(EncodeNewCredentials(c)) == Some(c)
  {
    hide Shared, CleanNewRoleEntry, EncodeNewRoleEntry, DecodeNewRoleEntry, EncodeAll, DecodeAll, Optional;
    forall r | r in c.roles
      ensures DecodeNewRoleEntry(EncodeNewRoleEntry(r)) == Some(r)
    {
      NewRoleEntryReadsBack(r);
    }
    ListReadsBack(c.roles, EncodeNewRoleEntry, DecodeNewRoleEntry);
    var own := NewCredentialsMembers(c);
    RestReadsBack(Credentials, own, c.rest, false);
    assert Get(own, "roles") == Some(Array(EncodeAll(c.roles, EncodeNewRoleEntry)));
    TextReadsBack("hub_party_id", c.hubPartyId);
    assert Get(own, "hub_party_id") == Get(TextMember("hub_party_id", c.hubPartyId), "hub_party_id");
  }

  lemma NewClientInfoReadsBack(c: New.ClientInfo)
    requires CleanRest(ClientInfo, c.rest)
    ensures DecodeNewClientInfo(EncodeNewClientInfo(c)) == Some(c)
  {
    hide Shared, NewRoleIn, NewRoleText;
    NewRoleReadsBack(c.role);
    RestReadsBack(ClientInfo, NewClientInfoMembers(c), c.rest, false);
    assert Get(NewClientInfoMembers(c), "role") == Some(Str(NewRoleText(c.role)));
  }

  // ---------------------------------------------------------------------------------------
  // There and back
  // ---------------------------------------------------------------------------------------
  lemma PriceUpIsClean(p: Old.Price)
    requires CleanOldPrice(p)
    ensures CleanNewPrice(PriceUp(p).value)
  {
  }

  lemma CostUpIsClean(p: Option<Old.Price>)
    requires CleanOldPriceCost(p)
    ensures CleanNewPriceCost(CostUp(p))
  {
    hide CleanOldPrice, CleanNewPrice, PriceUp;
    if p.Some? {
      PriceUpIsClean(p.value);
    }
  }

  lemma LimitUpIsClean(p: Option<Old.Price>)
    requires CleanOldPriceCost(p)
    ensures CleanPriceLimitCost(LimitUp(p))
  {
  }

  lemma ConnectorUpIsClean(x: Old.Connector)
    requires CleanOldConnector(x)
    ensures CleanNewConnector(ConnectorUp(x).value)
  {
    hide CleanRest;
  }

  lemma EvseUpIsClean(x: Old.Evse)
    requires CleanOldEvse(x)
    ensures CleanNewEvse(EvseUp(x).value)
  {
    hide CleanRest, CleanOldConnector, CleanNewConnector, ConnectorUp, ConvertAll;
    var ups := ConvertAll(ConnectorUp, x.connectors, "/connectors/").value;
    SameLength(ConnectorUp, x.connectors, "/connectors/");
    forall y | y in ups
      ensures CleanNewConnector(y)
    {
      var i :| 0 <= i < |ups| && ups[i] == y;
      ConnectorUpIsClean(x.connectors[i]);
    }
  }

  lemma LocationUpIsClean(x: Old.Location)
    requires CleanOldLocation(x)
    ensures CleanNewLocation(LocationUp(x).value)
  {
    hide CleanRest, CleanOldEvse, CleanNewEvse, EvseUp, ConvertAll;
    var ups := ConvertAll(EvseUp, x.evses, "/evses/").value;
    SameLength(EvseUp, x.evses, "/evses/");
    forall y | y in ups
      ensures CleanNewEvse(y)
    {
      var i :| 0 <= i < |ups| && ups[i] == y;
      EvseUpIsClean(x.evses[i]);
    }
  }

  lemma TariffUpIsClean(x: Old.Tariff)
    requires CleanOldTariff(x)
    ensures CleanNewTariff(TariffUp(x).value)
  {
    hide CleanRest, CleanOldPriceCost, CleanPriceLimitCost, LimitUp;
    LimitUpIsClean(x.minPrice);
    LimitUpIsClean(x.maxPrice);
  }

  lemma SessionUpIsClean(x: Old.Session)
    requires CleanOldSession(x)
    ensures CleanNewSession(SessionUp(x).value)
  {
    hide CleanRest, CleanOldPriceCost, CleanNewPriceCost, CostUp;
    CostUpIsClean(x.totalCost);
  }

  lemma CdrUpIsClean(x: Old.Cdr)
    requires CleanOldCdr(x)
    ensures CleanNewCdr(CdrUp(x).value)
  {
    hide CleanRest, CleanOldTariff, CleanNewTariff, TariffUp, ConvertAll, CleanOldPrice, CleanNewPrice, PriceUp,
         CleanOldPriceCost, CleanNewPriceCost, CostUp;
    var ups := ConvertAll(TariffUp, x.tariffs, "/tariffs/").value;
    SameLength(TariffUp, x.tariffs, "/tariffs/");
    forall y | y in ups
      ensures CleanNewTariff(y)
    {
      var i :| 0 <= i < |ups| && ups[i] == y;
      TariffUpIsClean(x.tariffs[i]);
    }
    PriceUpIsClean(x.totalCost);
    CostUpIsClean(x.totalFixedCost);
    CostUpIsClean(x.totalEnergyCost);
    CostUpIsClean(x.totalTimeCost);
    CostUpIsClean(x.totalParkingCost);
    CostUpIsClean(x.totalReservationCost);
  }

  // ---------------------------------------------------------------------------------------
  // Documents as they arrive
  // ---------------------------------------------------------------------------------------

  /** The undocumented members of an object use no name that either version spells out. */
  predicate Apart(kind: ObjectKind, rest: Fields) {
    rest.Keys !! DivergentFields(kind)
  }

  predicate ApartConnector(c: Old.Connector) {
    Apart(Connector, c.rest)
  }

  predicate ApartEvse(e: Old.Evse) {
    Apart(Evse, e.rest) && forall c :: c in e.connectors ==> ApartConnector(c)
  }

  predicate ApartLocation(l: Old.Location) {
    Apart(Location, l.rest) && forall e :: e in l.evses ==> ApartEvse(e)
  }

  predicate ApartTariff(t: Old.Tariff) {
    Apart(Tariff, t.rest) && CleanOldPriceCost(t.minPrice) && CleanOldPriceCost(t.maxPrice)
  }

  predicate ApartSession(s: Old.Session) {
    Apart(Session, s.rest) && CleanOldPriceCost(s.totalCost)
  }

  predicate ApartCdr(c: Old.Cdr) {
    && Apart(Cdr, c.rest)
    && (forall t :: t in c.tariffs ==> ApartTariff(t))
    && CleanOldPrice(c.totalCost) && CleanOldPriceCost(c.totalFixedCost) && CleanOldPriceCost(c.totalEnergyCost)
    && CleanOldPriceCost(c.totalTimeCost) && CleanOldPriceCost(c.totalParkingCost)
    && CleanOldPriceCost(c.totalReservationCost)
  }

  /** What was read of the shared members is as it will be written. */
  lemma ReadIsWritten(kind: ObjectKind, f: Fields)
    requires Shared(kind, f).Some?
    ensures Shared(kind, Shared(kind, f).value) == Shared(kind, f)
  {
    hide SharedFields;
    FieldsTwice(SharedFields(kind), f);
  }

  lemma ReadConnector(doc: Json)
    requires DecodeOldConnector(doc).Some? && ApartConnector(DecodeOldConnector(doc).value)
    ensures CleanOldConnector(DecodeOldConnector(doc).value)
  {
    hide Shared, DivergentFields;
    ReadIsWritten(Connector, doc.fields);
  }

  lemma ReadEvse(doc: Json)
    requires DecodeOldEvse(doc).Some? && ApartEvse(DecodeOldEvse(doc).value)
    ensures CleanOldEvse(DecodeOldEvse(doc).value)
  {
    hide Shared, DivergentFields, DecodeOldConnector, CleanOldConnector, ApartConnector;
    ReadIsWritten(Evse, doc.fields - OldFields(Evse));
    var (items, read) := (ItemsOf(Get(doc.fields, "connectors")).value, DecodeOldEvse(doc).value.connectors);
    forall c | c in read
      ensures CleanOldConnector(c)
    {
      var i :| 0 <= i < |read| && read[i] == c;
      ReadConnector(items[i]);
    }
  }

  lemma ReadLocation(doc: Json)
    requires DecodeOldLocation(doc).Some? && ApartLocation(DecodeOldLocation(doc).value)
    ensures CleanOldLocation(DecodeOldLocation(doc).value)
  {
    hide Shared, DivergentFields, DecodeOldEvse, CleanOldEvse, ApartEvse;
    ReadIsWritten(Location, doc.fields - OldFields(Location));
    var (items, read) := (ItemsOrNone(Get(doc.fields, "evses")).value, DecodeOldLocation(doc).value.evses);
    forall e | e in read
      ensures CleanOldEvse(e)
    {
      var i :| 0 <= i < |read| && read[i] == e;
      ReadEvse(items[i]);
    }
  }

  lemma ReadTariff(doc: Json)
    requires DecodeOldTariff(doc).Some? && ApartTariff(DecodeOldTariff(doc).value)
    ensures CleanOldTariff(DecodeOldTariff(doc).value)
  {
    hide Shared, DivergentFields, CleanOldPriceCost, Optional;
    ReadIsWritten(Tariff, doc.fields - OldFields(Tariff));
  }

  lemma ReadSession(doc: Json)
    requires DecodeOldSession(doc).Some? && ApartSession(DecodeOldSession(doc).value)
    ensures CleanOldSession(DecodeOldSession(doc).value)
  {
    hide Shared, DivergentFields, CleanOldPriceCost, Optional;
    ReadIsWritten(Session, doc.fields - OldFields(Session));
  }

  lemma ReadCdr(doc: Json)
    requires DecodeOldCdr(doc).Some? && ApartCdr(DecodeOldCdr(doc).value)
    ensures CleanOldCdr(DecodeOldCdr(doc).value)
  {
    hide Shared, DivergentFields, CleanOldPrice, CleanOldPriceCost, Optional, OldPriceIn, DecodeOldTariff,
         CleanOldTariff, ApartTariff;
    ReadIsWritten(Cdr, doc.fields - OldFields(Cdr));
    var (items, read) := (ItemsOrNone(Get(doc.fields, "tariffs")).value, DecodeOldCdr(doc).value.tariffs);
    forall t | t in read
      ensures CleanOldTariff(t)
    {
      var i :| 0 <= i < |read| && read[i] == t;
      ReadTariff(items[i]);
    }
  }

  // ---------------------------------------------------------------------------------------
  // Documents there and back
  // ---------------------------------------------------------------------------------------

  predicate Crosses(kind: ObjectKind, from: VersionNumber, to: VersionNumber, doc: Json, crossed: Json) {
    Bridged(kind, from, to, doc) == Ok(Lossless(crossed))
  }

  /** The document crosses up and down again without loss, and is then `back`. */
  ghost predicate ComesBackAs(kind: ObjectKind, doc: Json, back: Json) {
    exists up :: Crosses(kind, V2_2_1, V2_3_0, doc, up) && Crosses(kind, V2_3_0, V2_2_1, up, back)
  }

  lemma Transfers(kind: ObjectKind, f: Fields, g: Fields, back: Json)
    requires Up(kind, Object(f)) == Some(Lossless(Object(g))) && Down(kind, Object(g)) == Some(Lossless(back))
    ensures ComesBackAs(kind, Object(f), back)
  {
    hide Up, Down;
    Bridging.BridgedObject(kind, V2_2_1, V2_3_0, f);
    Bridging.BridgedObject(kind, V2_3_0, V2_2_1, g);
    hide Bridged;
    assert Crosses(kind, V2_2_1, V2_3_0, Object(f), Object(g)) && Crosses(kind, V2_3_0, V2_2_1, Object(g), back);
  }

  /** The crossing of each of these kinds. */
  lemma CrossingByKind(doc: Json)
    ensures Up(Connector, doc) == UpConnector(doc) && Down(Connector, doc) == DownConnector(doc)
    ensures Up(Evse, doc) == UpEvse(doc) && Down(Evse, doc) == DownEvse(doc)
    ensures Up(Location, doc) == UpLocation(doc) && Down(Location, doc) == DownLocation(doc)
    ensures Up(Tariff, doc) == UpTariff(doc) && Down(Tariff, doc) == DownTariff(doc)
    ensures Up(Session, doc) == UpSession(doc) && Down(Session, doc) == DownSession(doc)
    ensures Up(Cdr, doc) == UpCdr(doc) && Down(Cdr, doc) == DownCdr(doc)
  {
    hide UpLocation, DownLocation, UpEvse, DownEvse, UpConnector, DownConnector, UpSession, DownSession, UpCdr,
         DownCdr, UpTariff, DownTariff, UpCredentials, DownCredentials, UpClientInfo, DownClientInfo, Kept;
  }

  lemma ConnectorComesBack(doc: Json)
    requires DecodeOldConnector(doc).Some? && ApartConnector(DecodeOldConnector(doc).value)
    ensures ComesBackAs(Connector, doc, EncodeOldConnector(DecodeOldConnector(doc).value))
  {
    hide Up, Down, DecodeOldConnector, DecodeNewConnector, EncodeOldConnector, EncodeNewConnector,
         CleanOldConnector, CleanNewConnector, ApartConnector, ComesBackAs;
    var x := DecodeOldConnector(doc).value;
    ReadConnector(doc);
    ConnectorUpIsClean(x);
    var y := ConnectorUp(x).value;
    NewConnectorReadsBack(y);
    CrossingByKind(doc);
    CrossingByKind(EncodeNewConnector(y));
    Transfers(Connector, doc.fields, EncodeNewConnector(y).fields, EncodeOldConnector(x));
  }

  lemma EvseComesBack(doc: Json)
    requires DecodeOldEvse(doc).Some? && ApartEvse(DecodeOldEvse(doc).value)
    ensures ComesBackAs(Evse, doc, EncodeOldEvse(DecodeOldEvse(doc).value))
  {
    hide Up, Down, DecodeOldEvse, EvseUp, EvseDown, DecodeNewEvse, EncodeOldEvse, EncodeNewEvse,
         CleanOldEvse, CleanNewEvse, ApartEvse, ComesBackAs;
    var x := DecodeOldEvse(doc).value;
    ReadEvse(doc);
    EvseUpIsClean(x);
    var y := EvseUp(x).value;
    NewEvseReadsBack(y);
    EvseRoundTrip(x);
    CrossingByKind(doc);
    CrossingByKind(EncodeNewEvse(y));
    Transfers(Evse, doc.fields, EncodeNewEvse(y).fields, EncodeOldEvse(x));
  }

  lemma LocationComesBack(doc: Json)
    requires DecodeOldLocation(doc).Some? && ApartLocation(DecodeOldLocation(doc).value)
    ensures ComesBackAs(Location, doc, EncodeOldLocation(DecodeOldLocation(doc).value))
  {
    hide Up, Down, DecodeOldLocation, LocationUp, LocationDown, DecodeNewLocation, EncodeOldLocation, EncodeNewLocation,
         CleanOldLocation, CleanNewLocation, ApartLocation, ComesBackAs;
    var x := DecodeOldLocation(doc).value;
    ReadLocation(doc);
    LocationUpIsClean(x);
    var y := LocationUp(x).value;
    NewLocationReadsBack(y);
    LocationRoundTrip(x);
    CrossingByKind(doc);
    CrossingByKind(EncodeNewLocation(y));
    Transfers(Location, doc.fields, EncodeNewLocation(y).fields, EncodeOldLocation(x));
  }

  lemma TariffComesBack(doc: Json)
    requires DecodeOldTariff(doc).Some? && ApartTariff(DecodeOldTariff(doc).value)
    ensures ComesBackAs(Tariff, doc, EncodeOldTariff(DecodeOldTariff(doc).value))
  {
    hide Up, Down, DecodeOldTariff, TariffUp, TariffDown, DecodeNewTariff, EncodeOldTariff, EncodeNewTariff,
         CleanOldTariff, CleanNewTariff, ApartTariff, ComesBackAs;
    var x := DecodeOldTariff(doc).value;
    ReadTariff(doc);
    TariffUpIsClean(x);
    var y := TariffUp(x).value;
    NewTariffReadsBack(y);
    TariffRoundTrip(x);
    CrossingByKind(doc);
    CrossingByKind(EncodeNewTariff(y));
    Transfers(Tariff, doc.fields, EncodeNewTariff(y).fields, EncodeOldTariff(x));
  }

  lemma SessionComesBack(doc: Json)
    requires DecodeOldSession(doc).Some? && ApartSession(DecodeOldSession(doc).value)
    ensures ComesBackAs(Session, doc, EncodeOldSession(DecodeOldSession(doc).value))
  {
    hide Up, Down, DecodeOldSession, SessionUp, SessionDown, DecodeNewSession, EncodeOldSession, EncodeNewSession,
         CleanOldSession, CleanNewSession, ApartSession, ComesBackAs;
    var x := DecodeOldSession(doc).value;
    ReadSession(doc);
    SessionUpIsClean(x);
    var y := SessionUp(x).value;
    NewSessionReadsBack(y);
    SessionRoundTrip(x);
    CrossingByKind(doc);
    CrossingByKind(EncodeNewSession(y));
    Transfers(Session, doc.fields, EncodeNewSession(y).fields, EncodeOldSession(x));
  }

  lemma CdrComesBack(doc: Json)
    requires DecodeOldCdr(doc).Some? && ApartCdr(DecodeOldCdr(doc).value)
    ensures ComesBackAs(Cdr, doc, EncodeOldCdr(DecodeOldCdr(doc).value))
  {
    hide Up, Down, DecodeOldCdr, CdrUp, CdrDown, DecodeNewCdr, EncodeOldCdr, EncodeNewCdr,
         CleanOldCdr, CleanNewCdr, ApartCdr, ComesBackAs;
    var x := DecodeOldCdr(doc).value;
    ReadCdr(doc);
    CdrUpIsClean(x);
    var y := CdrUp(x).value;
    NewCdrReadsBack(y);
    CdrRoundTrip(x);
    CrossingByKind(doc);
    CrossingByKind(EncodeNewCdr(y));
    Transfers(Cdr, doc.fields, EncodeNewCdr(y).fields, EncodeOldCdr(x));
  }

  /** What 2.2.1 writes of a document it can read. */
  function AsWritten(kind: ObjectKind, doc: Json): Option<Json> {
    match kind
    case Connector => Reread(DecodeOldConnector(doc), EncodeOldConnector)
    case Evse => Reread(DecodeOldEvse(doc), EncodeOldEvse)
    case Location => Reread(DecodeOldLocation(doc), EncodeOldLocation)
    case Tariff => Reread(DecodeOldTariff(doc), EncodeOldTariff)
    case Session => Reread(DecodeOldSession(doc), EncodeOldSession)
    case Cdr => Reread(DecodeOldCdr(doc), EncodeOldCdr)
    case _ => None
  }

  function Reread<T>(read: Option<T>, encode: T -> Json): Option<Json> {
    if read.None? then None else Some(encode(read.value))
  }

  /**
   * A 2.2.1 document, of one of the kinds that lose nothing on the way up, that 2.2.1 can read and
   * whose undocumented members use no name that either version spells out.
   */
  predicate Unclashing(kind: ObjectKind, doc: Json) {
    match kind
    case Connector => DecodeOldConnector(doc).Some? && ApartConnector(DecodeOldConnector(doc).value)
    case Evse => DecodeOldEvse(doc).Some? && ApartEvse(DecodeOldEvse(doc).value)
    case Location => DecodeOldLocation(doc).Some? && ApartLocation(DecodeOldLocation(doc).value)
    case Tariff => DecodeOldTariff(doc).Some? && ApartTariff(DecodeOldTariff(doc).value)
    case Session => DecodeOldSession(doc).Some? && ApartSession(DecodeOldSession(doc).value)
    case Cdr => DecodeOldCdr(doc).Some? && ApartCdr(DecodeOldCdr(doc).value)
    case _ => false
  }

  /**
   * A 2.2.1 location, EVSE, connector, tariff, session or CDR crosses to 2.3.0 and back without a
   * loss in either report, and is then what 2.2.1 writes of it.
   */
  lemma DocumentsComeBack(kind: ObjectKind, doc: Json)
    requires Unclashing(kind, doc)
    ensures AsWritten(kind, doc).Some? && ComesBackAs(kind, doc, AsWritten(kind, doc).value)
  {
    hide ComesBackAs, ApartConnector, ApartEvse, ApartLocation, ApartTariff, ApartSession, ApartCdr,
         DecodeOldConnector, DecodeOldEvse, DecodeOldLocation, DecodeOldTariff, DecodeOldSession, DecodeOldCdr,
         EncodeOldConnector, EncodeOldEvse, EncodeOldLocation, EncodeOldTariff, EncodeOldSession, EncodeOldCdr;
    match kind
    case Connector => ConnectorComesBack(doc);
    case Evse => EvseComesBack(doc);
    case Location => LocationComesBack(doc);
    case Tariff => TariffComesBack(doc);
    case Session => SessionComesBack(doc);
    case Cdr => CdrComesBack(doc);
  }

  /** It is the document it was exactly when it already was as 2.2.1 writes it. */
  lemma DocumentsComeBackExactly(kind: ObjectKind, doc: Json)
    requires Unclashing(kind, doc)
    ensures ComesBackAs(kind, doc, doc) <==> AsWritten(kind, doc) == Some(doc)
  {
    hide AsWritten, Unclashing, Bridged;
    DocumentsComeBack(kind, doc);
  }

  lemma ConnectorSettles(doc: Json)
    requires DecodeOldConnector(doc).Some? && ApartConnector(DecodeOldConnector(doc).value)
    ensures DecodeOldConnector(EncodeOldConnector(DecodeOldConnector(doc).value)) == DecodeOldConnector(doc)
  {
    hide DecodeOldConnector, EncodeOldConnector, ApartConnector, CleanOldConnector;
    ReadConnector(doc);
    OldConnectorReadsBack(DecodeOldConnector(doc).value);
  }

  lemma EvseSettles(doc: Json)
    requires DecodeOldEvse(doc).Some? && ApartEvse(DecodeOldEvse(doc).value)
    ensures DecodeOldEvse(EncodeOldEvse(DecodeOldEvse(doc).value)) == DecodeOldEvse(doc)
  {
    hide DecodeOldEvse, EncodeOldEvse, ApartEvse, CleanOldEvse;
    ReadEvse(doc);
    OldEvseReadsBack(DecodeOldEvse(doc).value);
  }

  lemma LocationSettles(doc: Json)
    requires DecodeOldLocation(doc).Some? && ApartLocation(DecodeOldLocation(doc).value)
    ensures DecodeOldLocation(EncodeOldLocation(DecodeOldLocation(doc).value)) == DecodeOldLocation(doc)
  {
    hide DecodeOldLocation, EncodeOldLocation, ApartLocation, CleanOldLocation;
    ReadLocation(doc);
    OldLocationReadsBack(DecodeOldLocation(doc).value);
  }

  lemma TariffSettles(doc: Json)
    requires DecodeOldTariff(doc).Some? && ApartTariff(DecodeOldTariff(doc).value)
    ensures DecodeOldTariff(EncodeOldTariff(DecodeOldTariff(doc).value)) == DecodeOldTariff(doc)
  {
    hide DecodeOldTariff, EncodeOldTariff, ApartTariff, CleanOldTariff;
    ReadTariff(doc);
    OldTariffReadsBack(DecodeOldTariff(doc).value);
  }

  lemma SessionSettles(doc: Json)
    requires DecodeOldSession(doc).Some? && ApartSession(DecodeOldSession(doc).value)
    ensures DecodeOldSession(EncodeOldSession(DecodeOldSession(doc).value)) == DecodeOldSession(doc)
  {
    hide DecodeOldSession, EncodeOldSession, ApartSession, CleanOldSession;
    ReadSession(doc);
    OldSessionReadsBack(DecodeOldSession(doc).value);
  }

  lemma CdrSettles(doc: Json)
    requires DecodeOldCdr(doc).Some? && ApartCdr(DecodeOldCdr(doc).value)
    ensures DecodeOldCdr(EncodeOldCdr(DecodeOldCdr(doc).value)) == DecodeOldCdr(doc)
  {
    hide DecodeOldCdr, EncodeOldCdr, ApartCdr, CleanOldCdr;
    ReadCdr(doc);
    OldCdrReadsBack(DecodeOldCdr(doc).value);
  }

  /** What 2.2.1 writes of a document it can read again, and writes the same. */
  lemma Settles(kind: ObjectKind, doc: Json)
    requires Unclashing(kind, doc)
    ensures AsWritten(kind, doc).Some? && Unclashing(kind, AsWritten(kind, doc).value)
    ensures AsWritten(kind, AsWritten(kind, doc).value) == AsWritten(kind, doc)
  {
    hide ApartConnector, ApartEvse, ApartLocation, ApartTariff, ApartSession, ApartCdr,
         DecodeOldConnector, DecodeOldEvse, DecodeOldLocation, DecodeOldTariff, DecodeOldSession, DecodeOldCdr,
         EncodeOldConnector, EncodeOldEvse, EncodeOldLocation, EncodeOldTariff, EncodeOldSession, EncodeOldCdr;
    match kind
    case Connector => ConnectorSettles(doc);
    case Evse => EvseSettles(doc);
    case Location => LocationSettles(doc);
    case Tariff => TariffSettles(doc);
    case Session => SessionSettles(doc);
    case Cdr => CdrSettles(doc);
  }

  /** After one trip there and back a document is as 2.2.1 writes it, and every further trip gives it back. */
  lemma SecondTripChangesNothing(kind: ObjectKind, doc: Json)
    requires Unclashing(kind, doc)
    ensures AsWritten(kind, doc).Some?
    ensures ComesBackAs(kind, AsWritten(kind, doc).value, AsWritten(kind, doc).value)
  {
    hide AsWritten, Unclashing, ComesBackAs;
    Settles(kind, doc);
    DocumentsComeBack(kind, AsWritten(kind, doc).value);
  }
}
