/**
 * The objects of both versions as JSON documents.
 *
 * Decoding takes the fields a version spells out from their members and keeps all other members
 * as they will be written; encoding writes the spelled-out fields and then the kept members over
 * them.
 */
module Codec {
  import opened Wrappers
  import opened Json
  import opened Shapes
  import Objects
  import Old = Ocpi221
  import New = Ocpi230
  import Tariffs

  /** The objects whose wire format changed between the versions. */
  datatype ObjectKind =
    | Location
    | Evse
    | Connector
    | Session
    | Cdr
    | Tariff
    | Token
    | AuthorizationInfo
    | Credentials
    | ClientInfo
    | StartSession
    | ReserveNow

  /** The fields that are the same in both versions. */
  function SharedFields(kind: ObjectKind): map<string, Field> {
    match kind
    case Location => Objects.LocationFields()
    case Evse => Objects.EvseFields()
    case Connector => Objects.ConnectorFields()
    case Session => Objects.SessionFields()
    case Cdr => Objects.CdrFields()
    case Tariff => Objects.TariffFields()
    case Token => Objects.TokenFields()
    case AuthorizationInfo => Objects.AuthorizationInfoFields()
    case Credentials => Objects.CredentialsFields()
    case ClientInfo => Objects.ClientInfoFields()
    case StartSession => Objects.StartSessionFields()
    case ReserveNow => Objects.ReserveNowFields()
  }

  /** What is kept, and will be written, of the members of an object. */
  function Shared(kind: ObjectKind, f: Fields): Option<Fields> {
    RewrittenFields(SharedFields(kind), f)
  }

  /** The fields a 2.2.1 object spells out. */
  function OldFields(kind: ObjectKind): set<string> {
    match kind
    case Location => {"evses"}
    case Evse => {"connectors"}
    case Connector => {}
    case Session => {"total_cost"}
    case Cdr =>
      {"tariffs", "total_cost", "total_fixed_cost", "total_energy_cost", "total_time_cost",
       "total_parking_cost", "total_reservation_cost"}
    case Tariff => {"min_price", "max_price"}
    case Token => {}
    case AuthorizationInfo => {}
    case Credentials => {"roles"}
    case ClientInfo => {"role"}
    case StartSession => {}
    case ReserveNow => {}
  }

  /** The fields a 2.3.0 object spells out. */
  function NewFields(kind: ObjectKind): set<string> {
    match kind
    case Location => {"evses", "parking_places", "help_phone"}
    case Evse => {"connectors", "parking", "accepted_service_providers"}
    case Connector => {"capabilities"}
    case Session => {"total_cost"}
    case Cdr =>
      {"tariffs", "total_cost", "total_fixed_cost", "total_energy_cost", "total_time_cost",
       "total_parking_cost", "total_reservation_cost", "booking_id"}
    case Tariff => {"min_price", "max_price", "tax_included", "preauthorize_amount"}
    case Token => {}
    case AuthorizationInfo => {}
    case Credentials => {"roles", "hub_party_id"}
    case ClientInfo => {"role"}
    case StartSession => {}
    case ReserveNow => {}
  }

  /** The parts of objects that are objects themselves. */
  datatype Part = OldPricePart | TaxAmountPart | NewPricePart | PriceLimitPart | RoleEntryPart

  /** The fields such a part spells out. */
  function PartFields(part: Part): set<string> {
    match part
    case OldPricePart => {"excl_vat", "incl_vat"}
    case TaxAmountPart => {"name", "account_number", "percentage", "amount"}
    case NewPricePart => {"before_taxes", "taxes"}
    case PriceLimitPart => {"before_taxes", "after_taxes"}
    case RoleEntryPart => {"role", "business_details", "party_id", "country_code"}
  }

  // ---------------------------------------------------------------------------------------
  // Members
  // ---------------------------------------------------------------------------------------

  function TextOf(j: Option<Json>): Option<string> {
    if j.Some? && j.value.Str? then Some(j.value.s) else None
  }

  function NumberOf(j: Option<Json>): Option<real> {
    if j.Some? && j.value.Number? then Some(j.value.n) else None
  }

  /** A member that may be absent or null. */
  function Optional<T>(j: Option<Json>, decode: Option<Json> -> Option<T>): Option<Option<T>> {
    if j.None? || j.value.Null? then Some(None)
    else if decode(j).Some? then Some(Some(decode(j).value))
    else None
  }

  /** The business details of a role, which must be there. */
  function DetailsOf(j: Option<Json>): Option<Json> {
    if j.None? then None else Rewritten(Objects.BusinessDetails(), j.value)
  }

  /** A list member that must be there. */
  function ItemsOf(j: Option<Json>): Option<seq<Json>> {
    if j.Some? && j.value.Array? then Some(j.value.items) else None
  }

  /** A list member that is empty when absent. */
  function ItemsOrNone(j: Option<Json>): Option<seq<Json>> {
    if j.None? then Some([]) else ItemsOf(j)
  }

  /** Every item decoded, or nothing when one of them does not decode. */
  function DecodeAll<T>(items: seq<Json>, decode: Json -> Option<T>): (r: Option<seq<T>>)
    ensures r.Some? ==> |r.value| == |items| && forall i :: 0 <= i < |items| ==> decode(items[i]) == Some(r.value[i])
  {
    if items == [] then Some([])
    else
      var init := DecodeAll(items[..|items| - 1], decode);
      var last := decode(items[|items| - 1]);
      if init.None? || last.None? then None else Some(init.value + [last.value])
  }

  function Decoded<T>(items: Option<seq<Json>>, decode: Json -> Option<T>): Option<seq<T>> {
    if items.None? then None else DecodeAll(items.value, decode)
  }

  function EncodeAll<T>(items: seq<T>, encode: T -> Json): seq<Json> {
    seq(|items|, i requires 0 <= i < |items| => encode(items[i]))
  }

  /** A list member, left out when the list is empty. */
  function ListMember(name: string, items: seq<Json>): (r: Fields)
    ensures r.Keys <= {name}
  {
    if items == [] then map[] else map[name := Array(items)]
  }

  function NumberMember(name: string, value: Option<real>): (r: Fields)
    ensures r.Keys <= {name}
  {
    if value.None? then map[] else map[name := Number(value.value)]
  }

  function TextMember(name: string, value: Option<string>): (r: Fields)
    ensures r.Keys <= {name}
  {
    if value.None? then map[] else map[name := Str(value.value)]
  }

  // ---------------------------------------------------------------------------------------
  // Prices
  // ---------------------------------------------------------------------------------------

  function DecodeOldPrice(doc: Json): Option<Old.Price> {
    if !doc.Object? then None
    else
      var excl := NumberOf(Get(doc.fields, "excl_vat"));
      var incl := Optional(Get(doc.fields, "incl_vat"), NumberOf);
      if excl.None? || incl.None? then None
      else Some(Old.Price(excl.value, incl.value, doc.fields - PartFields(OldPricePart)))
  }

  function EncodeOldPrice(p: Old.Price): Json {
    Object(map["excl_vat" := Number(p.exclVat)] + NumberMember("incl_vat", p.inclVat) + p.rest)
  }

  function DecodeTaxAmount(doc: Json): Option<New.TaxAmount> {
    if !doc.Object? then None
    else
      var name := TextOf(Get(doc.fields, "name"));
      var account := Optional(Get(doc.fields, "account_number"), TextOf);
      var percentage := Optional(Get(doc.fields, "percentage"), NumberOf);
      var amount := NumberOf(Get(doc.fields, "amount"));
      if name.None? || account.None? || percentage.None? || amount.None? then None
      else Some(New.TaxAmount(name.value, account.value, percentage.value, amount.value,
          doc.fields - PartFields(TaxAmountPart)))
  }

  function EncodeTaxAmount(t: New.TaxAmount): Json {
    Object(map["name" := Str(t.name)] + TextMember("account_number", t.accountNumber)
           + NumberMember("percentage", t.percentage) + map["amount" := Number(t.amount)] + t.rest)
  }

  function DecodeNewPrice(doc: Json): Option<New.Price> {
    if !doc.Object? then None
    else
      var before := NumberOf(Get(doc.fields, "before_taxes"));
      var taxes := Decoded(ItemsOrNone(Get(doc.fields, "taxes")), DecodeTaxAmount);
      if before.None? || taxes.None? then None
      else Some(New.Price(before.value, taxes.value, doc.fields - PartFields(NewPricePart)))
  }

  function EncodeNewPrice(p: New.Price): Json {
    Object(map["before_taxes" := Number(p.beforeTaxes)]
           + ListMember("taxes", EncodeAll(p.taxes, EncodeTaxAmount)) + p.rest)
  }

  function DecodePriceLimit(doc: Json): Option<New.PriceLimit> {
    if !doc.Object? then None
    else
      var before := NumberOf(Get(doc.fields, "before_taxes"));
      var after := Optional(Get(doc.fields, "after_taxes"), NumberOf);
      if before.None? || after.None? then None
      else Some(New.PriceLimit(before.value, after.value, doc.fields - PartFields(PriceLimitPart)))
  }

  function EncodePriceLimit(p: New.PriceLimit): Json {
    Object(map["before_taxes" := Number(p.beforeTaxes)] + NumberMember("after_taxes", p.afterTaxes) + p.rest)
  }

  function OldPriceIn(j: Option<Json>): Option<Old.Price> {
    if j.None? then None else DecodeOldPrice(j.value)
  }

  function NewPriceIn(j: Option<Json>): Option<New.Price> {
    if j.None? then None else DecodeNewPrice(j.value)
  }

  function PriceLimitIn(j: Option<Json>): Option<New.PriceLimit> {
    if j.None? then None else DecodePriceLimit(j.value)
  }

  function OldPriceMember(name: string, p: Option<Old.Price>): (r: Fields)
    ensures r.Keys <= {name}
  {
    if p.None? then map[] else map[name := EncodeOldPrice(p.value)]
  }

  function NewPriceMember(name: string, p: Option<New.Price>): (r: Fields)
    ensures r.Keys <= {name}
  {
    if p.None? then map[] else map[name := EncodeNewPrice(p.value)]
  }

  function PriceLimitMember(name: string, p: Option<New.PriceLimit>): (r: Fields)
    ensures r.Keys <= {name}
  {
    if p.None? then map[] else map[name := EncodePriceLimit(p.value)]
  }

  // ---------------------------------------------------------------------------------------
  // Locations
  // ---------------------------------------------------------------------------------------

  function DecodeOldConnector(doc: Json): (r: Option<Old.Connector>)
    ensures r.Some? ==> doc.Object?
  {
    if !doc.Object? then None
    else
      var rest := Shared(Connector, doc.fields);
      if rest.None? then None else Some(Old.Connector(rest.value))
  }

  function EncodeOldConnector(c: Old.Connector): Json {
    Object(c.rest)
  }

  function DecodeNewConnector(doc: Json): Option<New.Connector> {
    if !doc.Object? then None
    else
      var rest := Shared(Connector, doc.fields - NewFields(Connector));
      var capabilities := ItemsOrNone(Get(doc.fields, "capabilities"));
      if rest.None? || capabilities.None? then None
      else Some(New.Connector(capabilities.value, rest.value))
  }

  function NewConnectorMembers(c: New.Connector): Fields {
    ListMember("capabilities", c.capabilities)
  }

  function EncodeNewConnector(c: New.Connector): (j: Json)
    ensures j.Object?
  {
    Object(NewConnectorMembers(c) + c.rest)
  }

  function DecodeOldEvse(doc: Json): (r: Option<Old.Evse>)
    ensures r.Some? ==> doc.Object?
  {
    if !doc.Object? then None
    else
      var rest := Shared(Evse, doc.fields - OldFields(Evse));
      var connectors := Decoded(ItemsOf(Get(doc.fields, "connectors")), DecodeOldConnector);
      if rest.None? || connectors.None? then None
      else Some(Old.Evse(connectors.value, rest.value))
  }

  function OldEvseMembers(e: Old.Evse): Fields {
    map["connectors" := Array(EncodeAll(e.connectors, EncodeOldConnector))]
  }

  function EncodeOldEvse(e: Old.Evse): Json {
    Object(OldEvseMembers(e) + e.rest)
  }

  function DecodeNewEvse(doc: Json): Option<New.Evse> {
    if !doc.Object? then None
    else
      var rest := Shared(Evse, doc.fields - NewFields(Evse));
      var connectors := Decoded(ItemsOf(Get(doc.fields, "connectors")), DecodeNewConnector);
      var parking := ItemsOrNone(Get(doc.fields, "parking"));
      var providers := ItemsOrNone(Get(doc.fields, "accepted_service_providers"));
      if rest.None? || connectors.None? || parking.None? || providers.None? then None
      else Some(New.Evse(connectors.value, parking.value, providers.value, rest.value))
  }

  function NewEvseMembers(e: New.Evse): Fields {
    map["connectors" := Array(EncodeAll(e.connectors, EncodeNewConnector))]
    + ListMember("parking", e.parking)
    + ListMember("accepted_service_providers", e.acceptedServiceProviders)
  }

  function EncodeNewEvse(e: New.Evse): (j: Json)
    ensures j.Object?
  {
    Object(NewEvseMembers(e) + e.rest)
  }

  function DecodeOldLocation(doc: Json): (r: Option<Old.Location>)
    ensures r.Some? ==> doc.Object?
  {
    if !doc.Object? then None
    else
      var rest := Shared(Location, doc.fields - OldFields(Location));
      var evses := Decoded(ItemsOrNone(Get(doc.fields, "evses")), DecodeOldEvse);
      if rest.None? || evses.None? then None
      else Some(Old.Location(evses.value, rest.value))
  }

  function OldLocationMembers(l: Old.Location): Fields {
    ListMember("evses", EncodeAll(l.evses, EncodeOldEvse))
  }

  function EncodeOldLocation(l: Old.Location): Json {
    Object(OldLocationMembers(l) + l.rest)
  }

  function DecodeNewLocation(doc: Json): Option<New.Location> {
    if !doc.Object? then None
    else
      var rest := Shared(Location, doc.fields - NewFields(Location));
      var evses := Decoded(ItemsOrNone(Get(doc.fields, "evses")), DecodeNewEvse);
      var places := ItemsOrNone(Get(doc.fields, "parking_places"));
      var phone := Optional(Get(doc.fields, "help_phone"), TextOf);
      if rest.None? || evses.None? || places.None? || phone.None? then None
      else Some(New.Location(evses.value, places.value, phone.value, rest.value))
  }

  function NewLocationMembers(l: New.Location): Fields {
    ListMember("evses", EncodeAll(l.evses, EncodeNewEvse))
    + ListMember("parking_places", l.parkingPlaces)
    + TextMember("help_phone", l.helpPhone)
  }

  function EncodeNewLocation(l: New.Location): (j: Json)
    ensures j.Object?
  {
    Object(NewLocationMembers(l) + l.rest)
  }

  // ---------------------------------------------------------------------------------------
  // Tariffs, sessions and CDRs
  // ---------------------------------------------------------------------------------------

  function DecodeOldTariff(doc: Json): (r: Option<Old.Tariff>)
    ensures r.Some? ==> doc.Object?
  {
    if !doc.Object? then None
    else
      var rest := Shared(Tariff, doc.fields - OldFields(Tariff));
      var minPrice := Optional(Get(doc.fields, "min_price"), OldPriceIn);
      var maxPrice := Optional(Get(doc.fields, "max_price"), OldPriceIn);
      if rest.None? || minPrice.None? || maxPrice.None? then None
      else Some(Old.Tariff(minPrice.value, maxPrice.value, rest.value))
  }

  function OldTariffMembers(t: Old.Tariff): Fields {
    OldPriceMember("min_price", t.minPrice) + OldPriceMember("max_price", t.maxPrice)
  }

  function EncodeOldTariff(t: Old.Tariff): Json {
    Object(OldTariffMembers(t) + t.rest)
  }

  function TaxIncludedIn(j: Option<Json>): Option<Tariffs.TaxIncluded> {
    if j.None? then None
    else if j.value == Str("YES") then Some(Tariffs.Yes)
    else if j.value == Str("NO") then Some(Tariffs.No)
    else if j.value == Str("N/A") then Some(Tariffs.NotApplicable)
    else None
  }

  function TaxIncludedText(t: Tariffs.TaxIncluded): Json {
    match t
    case Yes => Str("YES")
    case No => Str("NO")
    case NotApplicable => Str("N/A")
  }

  function DecodeNewTariff(doc: Json): Option<New.Tariff> {
    if !doc.Object? then None
    else
      var rest := Shared(Tariff, doc.fields - NewFields(Tariff));
      var minPrice := Optional(Get(doc.fields, "min_price"), PriceLimitIn);
      var maxPrice := Optional(Get(doc.fields, "max_price"), PriceLimitIn);
      var preauthorize := Optional(Get(doc.fields, "preauthorize_amount"), NumberOf);
      var taxIncluded := TaxIncludedIn(Get(doc.fields, "tax_included"));
      if rest.None? || minPrice.None? || maxPrice.None? || preauthorize.None? || taxIncluded.None? then None
      else Some(New.Tariff(minPrice.value, maxPrice.value, preauthorize.value, taxIncluded.value,
                           rest.value))
  }

  function NewTariffMembers(t: New.Tariff): Fields {
    PriceLimitMember("min_price", t.minPrice) + PriceLimitMember("max_price", t.maxPrice)
    + NumberMember("preauthorize_amount", t.preauthorizeAmount)
    + map["tax_included" := TaxIncludedText(t.taxIncluded)]
  }

  function EncodeNewTariff(t: New.Tariff): (j: Json)
    ensures j.Object?
  {
    Object(NewTariffMembers(t) + t.rest)
  }

  function DecodeOldSession(doc: Json): (r: Option<Old.Session>)
    ensures r.Some? ==> doc.Object?
  {
    if !doc.Object? then None
    else
      var rest := Shared(Session, doc.fields - OldFields(Session));
      var total := Optional(Get(doc.fields, "total_cost"), OldPriceIn);
      if rest.None? || total.None? then None
      else Some(Old.Session(total.value, rest.value))
  }

  function OldSessionMembers(s: Old.Session): Fields {
    OldPriceMember("total_cost", s.totalCost)
  }

  function EncodeOldSession(s: Old.Session): Json {
    Object(OldSessionMembers(s) + s.rest)
  }

  function DecodeNewSession(doc: Json): Option<New.Session> {
    if !doc.Object? then None
    else
      var rest := Shared(Session, doc.fields - NewFields(Session));
      var total := Optional(Get(doc.fields, "total_cost"), NewPriceIn);
      if rest.None? || total.None? then None
      else Some(New.Session(total.value, rest.value))
  }

  function NewSessionMembers(s: New.Session): Fields {
    NewPriceMember("total_cost", s.totalCost)
  }

  function EncodeNewSession(s: New.Session): (j: Json)
    ensures j.Object?
  {
    Object(NewSessionMembers(s) + s.rest)
  }

  function DecodeOldCdr(doc: Json): (r: Option<Old.Cdr>)
    ensures r.Some? ==> doc.Object?
  {
    if !doc.Object? then None
    else
      var rest := Shared(Cdr, doc.fields - OldFields(Cdr));
      var tariffs := Decoded(ItemsOrNone(Get(doc.fields, "tariffs")), DecodeOldTariff);
      var total := OldPriceIn(Get(doc.fields, "total_cost"));
      var fixed := Optional(Get(doc.fields, "total_fixed_cost"), OldPriceIn);
      var energy := Optional(Get(doc.fields, "total_energy_cost"), OldPriceIn);
      var time := Optional(Get(doc.fields, "total_time_cost"), OldPriceIn);
      var parking := Optional(Get(doc.fields, "total_parking_cost"), OldPriceIn);
      var reservation := Optional(Get(doc.fields, "total_reservation_cost"), OldPriceIn);
      if rest.None? || tariffs.None? || total.None? || fixed.None? || energy.None? || time.None? || parking.None?
         || reservation.None?
      then None
      else Some(Old.Cdr(tariffs.value, total.value, fixed.value, energy.value, time.value, parking.value,
                        reservation.value, rest.value))
  }

  function OldCdrMembers(c: Old.Cdr): Fields {
    ListMember("tariffs", EncodeAll(c.tariffs, EncodeOldTariff))
    + map["total_cost" := EncodeOldPrice(c.totalCost)]
    + OldPriceMember("total_fixed_cost", c.totalFixedCost)
    + OldPriceMember("total_energy_cost", c.totalEnergyCost)
    + OldPriceMember("total_time_cost", c.totalTimeCost)
    + OldPriceMember("total_parking_cost", c.totalParkingCost)
    + OldPriceMember("total_reservation_cost", c.totalReservationCost)
  }

  function EncodeOldCdr(c: Old.Cdr): Json {
    Object(OldCdrMembers(c) + c.rest)
  }

  function DecodeNewCdr(doc: Json): Option<New.Cdr> {
    if !doc.Object? then None
    else
      var rest := Shared(Cdr, doc.fields - NewFields(Cdr));
      var booking := Optional(Get(doc.fields, "booking_id"), TextOf);
      var tariffs := Decoded(ItemsOrNone(Get(doc.fields, "tariffs")), DecodeNewTariff);
      var total := NewPriceIn(Get(doc.fields, "total_cost"));
      var fixed := Optional(Get(doc.fields, "total_fixed_cost"), NewPriceIn);
      var energy := Optional(Get(doc.fields, "total_energy_cost"), NewPriceIn);
      var time := Optional(Get(doc.fields, "total_time_cost"), NewPriceIn);
      var parking := Optional(Get(doc.fields, "total_parking_cost"), NewPriceIn);
      var reservation := Optional(Get(doc.fields, "total_reservation_cost"), NewPriceIn);
      if rest.None? || tariffs.None? || total.None? || fixed.None? || energy.None? || time.None? || parking.None?
         || reservation.None? || booking.None?
      then None
      else Some(New.Cdr(booking.value, tariffs.value, total.value, fixed.value, energy.value, time.value, parking.value,
                        reservation.value, rest.value))
  }

  function NewCdrMembers(c: New.Cdr): Fields {
    ListMember("tariffs", EncodeAll(c.tariffs, EncodeNewTariff))
    + map["total_cost" := EncodeNewPrice(c.totalCost)]
    + NewPriceMember("total_fixed_cost", c.totalFixedCost)
    + NewPriceMember("total_energy_cost", c.totalEnergyCost)
    + NewPriceMember("total_time_cost", c.totalTimeCost)
    + NewPriceMember("total_parking_cost", c.totalParkingCost)
    + NewPriceMember("total_reservation_cost", c.totalReservationCost)
    + TextMember("booking_id", c.bookingId)
  }

  function EncodeNewCdr(c: New.Cdr): (j: Json)
    ensures j.Object?
  {
    Object(NewCdrMembers(c) + c.rest)
  }

  // ---------------------------------------------------------------------------------------
  // Roles, credentials and client info
  // ---------------------------------------------------------------------------------------

  function OldRoleText(r: Old.Role): string {
    match r
    case Cpo => "CPO"
    case Emsp => "EMSP"
    case Hub => "HUB"
    case Nap => "NAP"
    case Nsp => "NSP"
    case Other => "OTHER"
    case Scsp => "SCSP"
  }

  function NewRoleText(r: New.Role): string {
    match r
    case Cpo => "CPO"
    case Emsp => "EMSP"
    case Nap => "NAP"
    case Nsp => "NSP"
    case Other => "OTHER"
    case Scsp => "SCSP"
  }

  function NewRoleIn(j: Option<Json>): Option<New.Role> {
    match TextOf(j)
    case None => None
    case Some(text) =>
      if text == "CPO" then Some(New.Cpo)
      else if text == "EMSP" then Some(New.Emsp)
      else if text == "NAP" then Some(New.Nap)
      else if text == "NSP" then Some(New.Nsp)
      else if text == "OTHER" then Some(New.Role.Other)
      else if text == "SCSP" then Some(New.Scsp)
      else None
  }

  function OldRoleIn(j: Option<Json>): Option<Old.Role> {
    match TextOf(j)
    case None => None
    case Some(text) =>
      if text == "CPO" then Some(Old.Cpo)
      else if text == "EMSP" then Some(Old.Emsp)
      else if text == "HUB" then Some(Old.Hub)
      else if text == "NAP" then Some(Old.Nap)
      else if text == "NSP" then Some(Old.Nsp)
      else if text == "OTHER" then Some(Old.Role.Other)
      else if text == "SCSP" then Some(Old.Scsp)
      else None
  }

  function DecodeOldRoleEntry(doc: Json): Option<Old.CredentialsRole> {
    if !doc.Object? then None
    else
      var role := OldRoleIn(Get(doc.fields, "role"));
      var details := DetailsOf(Get(doc.fields, "business_details"));
      var partyId := TextOf(Get(doc.fields, "party_id"));
      var countryCode := TextOf(Get(doc.fields, "country_code"));
      if role.None? || details.None? || partyId.None? || countryCode.None? then None
      else Some(Old.CredentialsRole(role.value, details.value, partyId.value, countryCode.value,
                                    doc.fields - PartFields(RoleEntryPart)))
  }

  function EncodeOldRoleEntry(r: Old.CredentialsRole): Json {
    Object(map["role" := Str(OldRoleText(r.role)), "business_details" := r.businessDetails,
               "party_id" := Str(r.partyId), "country_code" := Str(r.countryCode)] + r.rest)
  }

  function DecodeOldCredentials(doc: Json): Option<Old.Credentials> {
    if !doc.Object? then None
    else
      var rest := Shared(Credentials, doc.fields - OldFields(Credentials));
      var roles := Decoded(ItemsOf(Get(doc.fields, "roles")), DecodeOldRoleEntry);
      if rest.None? || roles.None? then None
      else Some(Old.Credentials(roles.value, rest.value))
  }

  function OldCredentialsMembers(c: Old.Credentials): Fields {
    map["roles" := Array(EncodeAll(c.roles, EncodeOldRoleEntry))]
  }

  function EncodeOldCredentials(c: Old.Credentials): Json {
    Object(OldCredentialsMembers(c) + c.rest)
  }

  function DecodeOldClientInfo(doc: Json): Option<Old.ClientInfo> {
    if !doc.Object? then None
    else
      var rest := Shared(ClientInfo, doc.fields - OldFields(ClientInfo));
      var role := OldRoleIn(Get(doc.fields, "role"));
      if rest.None? || role.None? then None else Some(Old.ClientInfo(role.value, rest.value))
  }

  function OldClientInfoMembers(c: Old.ClientInfo): Fields {
    map["role" := Str(OldRoleText(c.role))]
  }

  function EncodeOldClientInfo(c: Old.ClientInfo): Json {
    Object(OldClientInfoMembers(c) + c.rest)
  }

  function DecodeNewRoleEntry(doc: Json): Option<New.CredentialsRole> {
    if !doc.Object? then None
    else
      var role := NewRoleIn(Get(doc.fields, "role"));
      var details := DetailsOf(Get(doc.fields, "business_details"));
      var partyId := TextOf(Get(doc.fields, "party_id"));
      var countryCode := TextOf(Get(doc.fields, "country_code"));
      if role.None? || details.None? || partyId.None? || countryCode.None? then None
      else Some(New.CredentialsRole(role.value, details.value, partyId.value, countryCode.value,
                                    doc.fields - PartFields(RoleEntryPart)))
  }

  function EncodeNewRoleEntry(r: New.CredentialsRole): Json {
    Object(map["role" := Str(NewRoleText(r.role)), "business_details" := r.businessDetails,
               "party_id" := Str(r.partyId), "country_code" := Str(r.countryCode)] + r.rest)
  }

  function DecodeNewCredentials(doc: Json): Option<New.Credentials> {
    if !doc.Object? then None
    else
      var rest := Shared(Credentials, doc.fields - NewFields(Credentials));
      var roles := Decoded(ItemsOf(Get(doc.fields, "roles")), DecodeNewRoleEntry);
      var hub := Optional(Get(doc.fields, "hub_party_id"), TextOf);
      if rest.None? || roles.None? || hub.None? then None
      else Some(New.Credentials(hub.value, roles.value, rest.value))
  }

  function NewCredentialsMembers(c: New.Credentials): Fields {
    TextMember("hub_party_id", c.hubPartyId) + map["roles" := Array(EncodeAll(c.roles, EncodeNewRoleEntry))]
  }

  function EncodeNewCredentials(c: New.Credentials): Json {
    Object(NewCredentialsMembers(c) + c.rest)
  }

  function DecodeNewClientInfo(doc: Json): Option<New.ClientInfo> {
    if !doc.Object? then None
    else
      var rest := Shared(ClientInfo, doc.fields - NewFields(ClientInfo));
      var role := NewRoleIn(Get(doc.fields, "role"));
      if rest.None? || role.None? then None else Some(New.ClientInfo(role.value, rest.value))
  }

  function NewClientInfoMembers(c: New.ClientInfo): Fields {
    map["role" := Str(NewRoleText(c.role))]
  }

  function EncodeNewClientInfo(c: New.ClientInfo): Json {
    Object(NewClientInfoMembers(c) + c.rest)
  }
}
