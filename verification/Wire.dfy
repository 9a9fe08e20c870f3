/**
 * Translating a JSON document from one OCPI version to another. Models `src/convert/wire.rs`.
 */
module Wire {
  import opened Wrappers
  import opened Json
  import opened Text
  import opened Codec
  import opened Convert
  import Old = Ocpi221
  import New = Ocpi230

  datatype VersionNumber = V2_0 | V2_1 | V2_1_1 | V2_2 | V2_2_1 | V2_3_0

  datatype BridgeError =
    | Unsupported(from: VersionNumber, to: VersionNumber)
    | Decode(version: VersionNumber, kind: ObjectKind)

  /** Whether documents can be translated between two versions. */
  predicate Bridgeable(from: VersionNumber, to: VersionNumber) {
    from == to || (from.V2_2_1? && to.V2_3_0?) || (from.V2_3_0? && to.V2_2_1?)
  }

  // ---------------------------------------------------------------------------------------
  // One object
  // ---------------------------------------------------------------------------------------

  /** A decoded object converted and written out again. */
  function Recode<T, U>(decoded: Option<T>, convert: T -> Converted<U>, encode: U -> Json): Option<Converted<Json>> {
    if decoded.None? then None
    else
      var converted := convert(decoded.value);
      Some(Converted(encode(converted.value), converted.lossy))
  }

  /** An object that spells nothing out. */
  function Kept(kind: ObjectKind, doc: Json): Option<Converted<Json>> {
    if !doc.Object? then None
    else
      var rest := Shared(kind, doc.fields);
      if rest.None? then None else Some(Lossless(Object(rest.value)))
  }

  function UpLocation(doc: Json): Option<Converted<Json>> {
    Recode(DecodeOldLocation(doc), LocationUp, EncodeNewLocation)
  }

  function DownLocation(doc: Json): Option<Converted<Json>> {
    Recode(DecodeNewLocation(doc), LocationDown, EncodeOldLocation)
  }

  function UpEvse(doc: Json): Option<Converted<Json>> {
    Recode(DecodeOldEvse(doc), EvseUp, EncodeNewEvse)
  }

  function DownEvse(doc: Json): Option<Converted<Json>> {
    Recode(DecodeNewEvse(doc), EvseDown, EncodeOldEvse)
  }

  function UpConnector(doc: Json): Option<Converted<Json>> {
    Recode(DecodeOldConnector(doc), ConnectorUp, EncodeNewConnector)
  }

  function DownConnector(doc: Json): Option<Converted<Json>> {
    Recode(DecodeNewConnector(doc), ConnectorDown, EncodeOldConnector)
  }

  function UpSession(doc: Json): Option<Converted<Json>> {
    Recode(DecodeOldSession(doc), SessionUp, EncodeNewSession)
  }

  function DownSession(doc: Json): Option<Converted<Json>> {
    Recode(DecodeNewSession(doc), SessionDown, EncodeOldSession)
  }

  function UpCdr(doc: Json): Option<Converted<Json>> {
    Recode(DecodeOldCdr(doc), CdrUp, EncodeNewCdr)
  }

  function DownCdr(doc: Json): Option<Converted<Json>> {
    Recode(DecodeNewCdr(doc), CdrDown, EncodeOldCdr)
  }

  function UpTariff(doc: Json): Option<Converted<Json>> {
    Recode(DecodeOldTariff(doc), TariffUp, EncodeNewTariff)
  }

  function DownTariff(doc: Json): Option<Converted<Json>> {
    Recode(DecodeNewTariff(doc), TariffDown, EncodeOldTariff)
  }

  function UpCredentials(doc: Json): Option<Converted<Json>> {
    Recode(DecodeOldCredentials(doc), CredentialsUp, EncodeNewCredentials)
  }

  function DownCredentials(doc: Json): Option<Converted<Json>> {
    Recode(DecodeNewCredentials(doc), CredentialsDown, EncodeOldCredentials)
  }

  function UpClientInfo(doc: Json): Option<Converted<Json>> {
    Recode(DecodeOldClientInfo(doc), ClientInfoUp, EncodeNewClientInfo)
  }

  function DownClientInfo(doc: Json): Option<Converted<Json>> {
    Recode(DecodeNewClientInfo(doc), ClientInfoDown, EncodeOldClientInfo)
  }

  function Up(kind: ObjectKind, doc: Json): Option<Converted<Json>> {
    match kind
    case Location => UpLocation(doc)
    case Evse => UpEvse(doc)
    case Connector => UpConnector(doc)
    case Session => UpSession(doc)
    case Cdr => UpCdr(doc)
    case Tariff => UpTariff(doc)
    case Credentials => UpCredentials(doc)
    case ClientInfo => UpClientInfo(doc)
    case Token => Kept(Token, doc)
    case AuthorizationInfo => Kept(AuthorizationInfo, doc)
    case StartSession => Kept(StartSession, doc)
    case ReserveNow => Kept(ReserveNow, doc)
  }

  function Down(kind: ObjectKind, doc: Json): Option<Converted<Json>> {
    match kind
    case Location => DownLocation(doc)
    case Evse => DownEvse(doc)
    case Connector => DownConnector(doc)
    case Session => DownSession(doc)
    case Cdr => DownCdr(doc)
    case Tariff => DownTariff(doc)
    case Credentials => DownCredentials(doc)
    case ClientInfo => DownClientInfo(doc)
    case Token => Kept(Token, doc)
    case AuthorizationInfo => Kept(AuthorizationInfo, doc)
    case StartSession => Kept(StartSession, doc)
    case ReserveNow => Kept(ReserveNow, doc)
  }

  function BridgedOne(kind: ObjectKind, from: VersionNumber, to: VersionNumber, doc: Json)
    : Result<Converted<Json>, BridgeError>
  {
    if from.V2_2_1? && to.V2_3_0? then
      var r := Up(kind, doc);
      if r.None? then Err(Decode(from, kind)) else Ok(r.value)
    else if from.V2_3_0? && to.V2_2_1? then
      var r := Down(kind, doc);
      if r.None? then Err(Decode(from, kind)) else Ok(r.value)
    else Err(Unsupported(from, to))
  }

  // ---------------------------------------------------------------------------------------
  // One document
  // ---------------------------------------------------------------------------------------

  /** A page translated element by element; the first element that fails is the answer. */
  function BridgedPage(kind: ObjectKind, from: VersionNumber, to: VersionNumber, items: seq<Json>)
    : Result<Converted<seq<Json>>, BridgeError>
  {
    if items == [] then Ok(Lossless([]))
    else
      var n := |items| - 1;
      match BridgedPage(kind, from, to, items[..n])
      case Err(e) => Err(e)
      case Ok(init) =>
        match BridgedOne(kind, from, to, items[n])
        case Err(e) => Err(e)
        case Ok(last) => Ok(Converted(init.value + [last.value], init.lossy + Lift("/" + Numeral(n), last.lossy)))
  }

  function Bridged(kind: ObjectKind, from: VersionNumber, to: VersionNumber, doc: Json)
    : Result<Converted<Json>, BridgeError>
  {
    if from == to then Ok(Lossless(doc))
    else
      match doc
      case Null => Ok(Lossless(Null))
      case Array(items) =>
        (match BridgedPage(kind, from, to, items)
         case Err(e) => Err(e)
         case Ok(page) => Ok(Converted(Array(page.value), page.lossy)))
      case _ => BridgedOne(kind, from, to, doc)
  }

  lemma {:induction false} FirstFailureIsTheAnswer(
    kind: ObjectKind, from: VersionNumber, to: VersionNumber, items: seq<Json>, n: nat)
    requires n <= |items| && BridgedPage(kind, from, to, items[..n]).Err?
    ensures BridgedPage(kind, from, to, items) == Err(BridgedPage(kind, from, to, items[..n]).error)
    decreases |items|
  {
    hide BridgedOne;
    if n == |items| {
      assert items[..n] == items;
    } else {
      assert items[..|items| - 1][..n] == items[..n];
      FirstFailureIsTheAnswer(kind, from, to, items[..|items| - 1], n);
    }
  }

  lemma BridgedPageStep(kind: ObjectKind, from: VersionNumber, to: VersionNumber, items: seq<Json>, n: nat)
    requires n < |items| && BridgedPage(kind, from, to, items[..n]).Ok?
    ensures var init := BridgedPage(kind, from, to, items[..n]).value;
            BridgedPage(kind, from, to, items[..n + 1])
            == match BridgedOne(kind, from, to, items[n])
               case Err(e) => Err(e)
               case Ok(last) => Ok(Converted(init.value + [last.value], init.lossy
                   + Lift("/" + Numeral(n), last.lossy)))
  {
    hide BridgedOne;
    assert items[..n + 1][..n] == items[..n];
  }

  lemma BridgedNothing(kind: ObjectKind, from: VersionNumber, to: VersionNumber, items: seq<Json>)
    ensures BridgedPage(kind, from, to, items[..0]) == Ok(Lossless([]))
  {
  }

  method BridgePage(kind: ObjectKind, from: VersionNumber, to: VersionNumber, items: seq<Json>)
    returns (r: Result<Converted<seq<Json>>, BridgeError>)
    ensures r == BridgedPage(kind, from, to, items)
  {
    hide BridgedOne, BridgedPage, Numeral;
    var out := [];
    var lossy := new Lossy();
    BridgedNothing(kind, from, to, items);
    for index := 0 to |items|
      invariant fresh(lossy)
      invariant BridgedPage(kind, from, to, items[..index]) == Ok(Converted(out, lossy.pointers))
    {
      BridgedPageStep(kind, from, to, items, index);
      var converted := BridgedOne(kind, from, to, items[index]);
      if converted.Err? {
        FirstFailureIsTheAnswer(kind, from, to, items, index + 1);
        return Err(converted.error);
      }
      lossy.Absorb("/" + Numeral(index), converted.value.lossy);
      out := out + [converted.value.value];
    }
    assert items[..|items|] == items;
    return Ok(Converted(out, lossy.pointers));
  }

  method Bridge(kind: ObjectKind, from: VersionNumber, to: VersionNumber, doc: Json)
    returns (r: Result<Converted<Json>, BridgeError>)
    ensures r == Bridged(kind, from, to, doc)
  {
    hide BridgedOne, BridgedPage;
    if from == to {
      return Ok(Lossless(doc));
    }
    match doc {
      case Null =>
        return Ok(Lossless(Null));
      case Array(items) =>
        var page := BridgePage(kind, from, to, items);
        return match page case Err(e) => Err(e) case Ok(c) => Ok(Converted(Array(c.value), c.lossy));
      case _ =>
        r := BridgedOne(kind, from, to, doc);
    }
  }

  // ---------------------------------------------------------------------------------------
  // Merge patches
  // ---------------------------------------------------------------------------------------

  /** The top-level fields whose shape or presence differs between the versions. */
  function DivergentFields(kind: ObjectKind): set<string> {
    match kind
    case Location => {"evses", "parking_places", "help_phone"}
    case Evse => {"connectors", "parking", "accepted_service_providers"}
    case Connector => {"capabilities"}
    case Session => {"total_cost"}
    case Cdr => {"tariffs", "booking_id", "total_cost", "total_fixed_cost", "total_energy_cost", "total_time_cost",
                 "total_parking_cost", "total_reservation_cost"}
    case Tariff => {"min_price", "max_price", "tax_included", "preauthorize_amount"}
    case Credentials => {"roles", "hub_party_id"}
    case ClientInfo => {"role"}
    case Token => {}
    case AuthorizationInfo => {}
    case StartSession => {}
    case ReserveNow => {}
  }

  /** Whether a merge patch that writes `fields` means the same thing in both versions. */
  predicate PatchCrossesUnchanged(kind: ObjectKind, fields: set<string>) {
    forall f :: f in fields ==> f !in DivergentFields(kind)
  }

  /** What the source version of a crossing spells out. */
  function SpelledOut(kind: ObjectKind, up: bool): set<string> {
    if up then OldFields(kind) else NewFields(kind)
  }

  function Crossed(kind: ObjectKind, up: bool, doc: Json): Option<Converted<Json>> {
    if up then Up(kind, doc) else Down(kind, doc)
  }

  /** Two documents with the same spelled-out members. */
  predicate SameSpelledOut(kind: ObjectKind, up: bool, f: Fields, g: Fields) {
    forall n :: n in SpelledOut(kind, up) ==> Get(f, n) == Get(g, n)
  }

  /**
   * A crossing rewrites the spelled-out members, within those the other version spells out, from
   * themselves alone, and lays the other members over them as they are written; it fails exactly
   * when those cannot be read.
   */
  ghost predicate Rewrites(kind: ObjectKind, up: bool, f: Fields, crossed: Option<Converted<Json>>, own: Fields,
                           lossy: Report)
  {
    var rest := Shared(kind, f - SpelledOut(kind, up));
    && own.Keys <= SpelledOut(kind, !up)
    && crossed == if rest.None? then None else Some(Converted(Object(own + rest.value), lossy))
  }

  lemma LocationUpRewrites(f: Fields, g: Fields) returns (own: Fields, lossy: Report)
    requires UpLocation(Object(f)).Some? && SameSpelledOut(Location, true, f, g)
    ensures Rewrites(Location, true, f, UpLocation(Object(f)), own, lossy)
    ensures Rewrites(Location, true, g, UpLocation(Object(g)), own, lossy)
  {
    hide Shared;
    var crossed := LocationUp(DecodeOldLocation(Object(f)).value);
    own, lossy := NewLocationMembers(crossed.value), crossed.lossy;
  }

  lemma LocationDownRewrites(f: Fields, g: Fields) returns (own: Fields, lossy: Report)
    requires DownLocation(Object(f)).Some? && SameSpelledOut(Location, false, f, g)
    ensures Rewrites(Location, false, f, DownLocation(Object(f)), own, lossy)
    ensures Rewrites(Location, false, g, DownLocation(Object(g)), own, lossy)
  {
    hide Shared;
    var crossed := LocationDown(DecodeNewLocation(Object(f)).value);
    own, lossy := OldLocationMembers(crossed.value), crossed.lossy;
  }

  lemma EvseUpRewrites(f: Fields, g: Fields) returns (own: Fields, lossy: Report)
    requires UpEvse(Object(f)).Some? && SameSpelledOut(Evse, true, f, g)
    ensures Rewrites(Evse, true, f, UpEvse(Object(f)), own, lossy)
    ensures Rewrites(Evse, true, g, UpEvse(Object(g)), own, lossy)
  {
    hide Shared;
    var crossed := EvseUp(DecodeOldEvse(Object(f)).value);
    own, lossy := NewEvseMembers(crossed.value), crossed.lossy;
  }

  lemma EvseDownRewrites(f: Fields, g: Fields) returns (own: Fields, lossy: Report)
    requires DownEvse(Object(f)).Some? && SameSpelledOut(Evse, false, f, g)
    ensures Rewrites(Evse, false, f, DownEvse(Object(f)), own, lossy)
    ensures Rewrites(Evse, false, g, DownEvse(Object(g)), own, lossy)
  {
    hide Shared;
    var crossed := EvseDown(DecodeNewEvse(Object(f)).value);
    own, lossy := OldEvseMembers(crossed.value), crossed.lossy;
  }

  lemma ConnectorUpRewrites(f: Fields, g: Fields) returns (own: Fields, lossy: Report)
    requires UpConnector(Object(f)).Some? && SameSpelledOut(Connector, true, f, g)
    ensures Rewrites(Connector, true, f, UpConnector(Object(f)), own, lossy)
    ensures Rewrites(Connector, true, g, UpConnector(Object(g)), own, lossy)
  {
    hide Shared;
    assert f - {} == f && g - {} == g;
    var crossed := ConnectorUp(DecodeOldConnector(Object(f)).value);
    own, lossy := NewConnectorMembers(crossed.value), crossed.lossy;
  }

  lemma ConnectorDownRewrites(f: Fields, g: Fields) returns (own: Fields, lossy: Report)
    requires DownConnector(Object(f)).Some? && SameSpelledOut(Connector, false, f, g)
    ensures Rewrites(Connector, false, f, DownConnector(Object(f)), own, lossy)
    ensures Rewrites(Connector, false, g, DownConnector(Object(g)), own, lossy)
  {
    hide Shared;
    assert forall rest: Fields :: map[] + rest == rest;
    own, lossy := map[], ConnectorDown(DecodeNewConnector(Object(f)).value).lossy;
  }

  lemma SessionUpRewrites(f: Fields, g: Fields) returns (own: Fields, lossy: Report)
    requires UpSession(Object(f)).Some? && SameSpelledOut(Session, true, f, g)
    ensures Rewrites(Session, true, f, UpSession(Object(f)), own, lossy)
    ensures Rewrites(Session, true, g, UpSession(Object(g)), own, lossy)
  {
    hide Shared;
    var crossed := SessionUp(DecodeOldSession(Object(f)).value);
    own, lossy := NewSessionMembers(crossed.value), crossed.lossy;
  }

  lemma SessionDownRewrites(f: Fields, g: Fields) returns (own: Fields, lossy: Report)
    requires DownSession(Object(f)).Some? && SameSpelledOut(Session, false, f, g)
    ensures Rewrites(Session, false, f, DownSession(Object(f)), own, lossy)
    ensures Rewrites(Session, false, g, DownSession(Object(g)), own, lossy)
  {
    hide Shared;
    var crossed := SessionDown(DecodeNewSession(Object(f)).value);
    own, lossy := OldSessionMembers(crossed.value), crossed.lossy;
  }

  lemma OldCdrReads(f: Fields, g: Fields)
    requires DecodeOldCdr(Object(f)).Some? && forall n :: n in OldFields(Cdr) ==> Get(f, n) == Get(g, n)
    ensures DecodeOldCdr(Object(g))
            == var rest := Shared(Cdr, g - OldFields(Cdr));
               if rest.None? then None else Some(DecodeOldCdr(Object(f)).value.(rest := rest.value))
  {
    hide Shared, Decoded, Optional, ItemsOrNone, OldPriceIn, Get;
  }

  lemma NewCdrWrites(c: New.Cdr)
    ensures NewCdrMembers(c).Keys <= NewFields(Cdr)
  {
    hide EncodeAll, EncodeNewPrice, NewPriceMember, ListMember, TextMember;
  }

  lemma CdrUpRewrites(f: Fields, g: Fields) returns (own: Fields, lossy: Report)
    requires UpCdr(Object(f)).Some? && SameSpelledOut(Cdr, true, f, g)
    ensures Rewrites(Cdr, true, f, UpCdr(Object(f)), own, lossy)
    ensures Rewrites(Cdr, true, g, UpCdr(Object(g)), own, lossy)
  {
    hide Shared, NewCdrMembers, DecodeOldCdr, CdrUp, EncodeNewCdr, OldFields, NewFields;
    OldCdrReads(f, g);
    OldCdrReads(f, f);
    var c := DecodeOldCdr(Object(f)).value;
    NewCdrWrites(CdrUp(c).value);
    own, lossy := NewCdrMembers(CdrUp(c).value), CdrUp(c).lossy;
    forall rest: Fields
      ensures UpOfCdr(c.(rest := rest)) == Converted(Object(own + rest), lossy)
    {
      CdrUpIgnoresRest(c, rest);
    }
  }

  /** A CDR converted and written out. */
  function UpOfCdr(c: Old.Cdr): Converted<Json> {
    Converted(EncodeNewCdr(CdrUp(c).value), CdrUp(c).lossy)
  }

  lemma CdrUpIgnoresRest(c: Old.Cdr, rest: Fields)
    ensures UpOfCdr(c.(rest := rest)) == Converted(Object(NewCdrMembers(CdrUp(c).value) + rest), CdrUp(c).lossy)
  {
    hide NewCdrMembers, ConvertAll, PriceUp, CostUp;
    NewCdrMembersIgnoreRest(CdrUp(c).value, rest);
  }

  lemma NewCdrMembersIgnoreRest(c: New.Cdr, rest: Fields)
    ensures NewCdrMembers(c.(rest := rest)) == NewCdrMembers(c)
  {
  }

  lemma NewCdrReads(f: Fields, g: Fields)
    requires DecodeNewCdr(Object(f)).Some? && forall n :: n in NewFields(Cdr) ==> Get(f, n) == Get(g, n)
    ensures DecodeNewCdr(Object(g))
            == var rest := Shared(Cdr, g - NewFields(Cdr));
               if rest.None? then None else Some(DecodeNewCdr(Object(f)).value.(rest := rest.value))
  {
    hide Shared, Decoded, Optional, ItemsOrNone, NewPriceIn, Get;
  }

  lemma OldCdrWrites(c: Old.Cdr)
    ensures OldCdrMembers(c).Keys <= OldFields(Cdr)
  {
    hide EncodeAll, EncodeOldPrice, OldPriceMember, ListMember, TextMember;
  }

  lemma CdrDownRewrites(f: Fields, g: Fields) returns (own: Fields, lossy: Report)
    requires DownCdr(Object(f)).Some? && SameSpelledOut(Cdr, false, f, g)
    ensures Rewrites(Cdr, false, f, DownCdr(Object(f)), own, lossy)
    ensures Rewrites(Cdr, false, g, DownCdr(Object(g)), own, lossy)
  {
    hide Shared, OldCdrMembers, DecodeNewCdr, CdrDown, EncodeOldCdr, OldFields, NewFields;
    NewCdrReads(f, g);
    NewCdrReads(f, f);
    var c := DecodeNewCdr(Object(f)).value;
    OldCdrWrites(CdrDown(c).value);
    own, lossy := OldCdrMembers(CdrDown(c).value), CdrDown(c).lossy;
    forall rest: Fields
      ensures DownOfCdr(c.(rest := rest)) == Converted(Object(own + rest), lossy)
    {
      CdrDownIgnoresRest(c, rest);
    }
  }

  function DownOfCdr(c: New.Cdr): Converted<Json> {
    Converted(EncodeOldCdr(CdrDown(c).value), CdrDown(c).lossy)
  }

  lemma CdrDownIgnoresRest(c: New.Cdr, rest: Fields)
    ensures DownOfCdr(c.(rest := rest)) == Converted(Object(OldCdrMembers(CdrDown(c).value) + rest), CdrDown(c).lossy)
  {
    hide OldCdrMembers, ConvertAll, PriceDown, CostDown;
    OldCdrMembersIgnoreRest(CdrDown(c).value, rest);
  }

  lemma OldCdrMembersIgnoreRest(c: Old.Cdr, rest: Fields)
    ensures OldCdrMembers(c.(rest := rest)) == OldCdrMembers(c)
  {
  }

  lemma TariffUpRewrites(f: Fields, g: Fields) returns (own: Fields, lossy: Report)
    requires UpTariff(Object(f)).Some? && SameSpelledOut(Tariff, true, f, g)
    ensures Rewrites(Tariff, true, f, UpTariff(Object(f)), own, lossy)
    ensures Rewrites(Tariff, true, g, UpTariff(Object(g)), own, lossy)
  {
    hide Shared;
    var crossed := TariffUp(DecodeOldTariff(Object(f)).value);
    own, lossy := NewTariffMembers(crossed.value), crossed.lossy;
  }

  lemma TariffDownRewrites(f: Fields, g: Fields) returns (own: Fields, lossy: Report)
    requires DownTariff(Object(f)).Some? && SameSpelledOut(Tariff, false, f, g)
    ensures Rewrites(Tariff, false, f, DownTariff(Object(f)), own, lossy)
    ensures Rewrites(Tariff, false, g, DownTariff(Object(g)), own, lossy)
  {
    hide Shared;
    var crossed := TariffDown(DecodeNewTariff(Object(f)).value);
    own, lossy := OldTariffMembers(crossed.value), crossed.lossy;
  }

  lemma CredentialsUpRewrites(f: Fields, g: Fields) returns (own: Fields, lossy: Report)
    requires UpCredentials(Object(f)).Some? && SameSpelledOut(Credentials, true, f, g)
    ensures Rewrites(Credentials, true, f, UpCredentials(Object(f)), own, lossy)
    ensures Rewrites(Credentials, true, g, UpCredentials(Object(g)), own, lossy)
  {
    hide Shared, HubPartyId, RolesUp, Decoded, EncodeAll;
    var crossed := CredentialsUp(DecodeOldCredentials(Object(f)).value);
    own, lossy := NewCredentialsMembers(crossed.value), crossed.lossy;
  }

  lemma CredentialsDownRewrites(f: Fields, g: Fields) returns (own: Fields, lossy: Report)
    requires DownCredentials(Object(f)).Some? && SameSpelledOut(Credentials, false, f, g)
    ensures Rewrites(Credentials, false, f, DownCredentials(Object(f)), own, lossy)
    ensures Rewrites(Credentials, false, g, DownCredentials(Object(g)), own, lossy)
  {
    hide Shared, PartyOf, RolesDown, Decoded, EncodeAll, Optional;
    var crossed := CredentialsDown(DecodeNewCredentials(Object(f)).value);
    own, lossy := OldCredentialsMembers(crossed.value), crossed.lossy;
  }

  lemma ClientInfoUpRewrites(f: Fields, g: Fields) returns (own: Fields, lossy: Report)
    requires UpClientInfo(Object(f)).Some? && SameSpelledOut(ClientInfo, true, f, g)
    ensures Rewrites(ClientInfo, true, f, UpClientInfo(Object(f)), own, lossy)
    ensures Rewrites(ClientInfo, true, g, UpClientInfo(Object(g)), own, lossy)
  {
    hide Shared;
    var crossed := ClientInfoUp(DecodeOldClientInfo(Object(f)).value);
    own, lossy := NewClientInfoMembers(crossed.value), crossed.lossy;
  }

  lemma ClientInfoDownRewrites(f: Fields, g: Fields) returns (own: Fields, lossy: Report)
    requires DownClientInfo(Object(f)).Some? && SameSpelledOut(ClientInfo, false, f, g)
    ensures Rewrites(ClientInfo, false, f, DownClientInfo(Object(f)), own, lossy)
    ensures Rewrites(ClientInfo, false, g, DownClientInfo(Object(g)), own, lossy)
  {
    hide Shared;
    var crossed := ClientInfoDown(DecodeNewClientInfo(Object(f)).value);
    own, lossy := OldClientInfoMembers(crossed.value), crossed.lossy;
  }

  lemma KeptRewrites(kind: ObjectKind, up: bool, f: Fields)
    requires OldFields(kind) == {} && NewFields(kind) == {}
    ensures Rewrites(kind, up, f, Kept(kind, Object(f)), map[], [])
  {
    hide Shared, OldFields, NewFields;
    assert f - {} == f;
    assert forall rest: Fields :: map[] + rest == rest;
  }

  lemma CrossedRewrites(kind: ObjectKind, up: bool, f: Fields, g: Fields) returns (own: Fields, lossy: Report)
    requires Crossed(kind, up, Object(f)).Some? && SameSpelledOut(kind, up, f, g)
    ensures Rewrites(kind, up, f, Crossed(kind, up, Object(f)), own, lossy)
    ensures Rewrites(kind, up, g, Crossed(kind, up, Object(g)), own, lossy)
  {
    hide UpLocation, DownLocation, UpEvse, DownEvse, UpConnector, DownConnector, UpSession, DownSession, UpCdr,
         DownCdr, UpTariff, DownTariff, UpCredentials, DownCredentials, UpClientInfo, DownClientInfo, Shared;
    match kind
    case Location =>
      if up { own, lossy := LocationUpRewrites(f, g); } else { own, lossy := LocationDownRewrites(f, g); }
    case Evse =>
      if up { own, lossy := EvseUpRewrites(f, g); } else { own, lossy := EvseDownRewrites(f, g); }
    case Connector =>
      if up { own, lossy := ConnectorUpRewrites(f, g); } else { own, lossy := ConnectorDownRewrites(f, g); }
    case Session =>
      if up { own, lossy := SessionUpRewrites(f, g); } else { own, lossy := SessionDownRewrites(f, g); }
    case Cdr =>
      if up { own, lossy := CdrUpRewrites(f, g); } else { own, lossy := CdrDownRewrites(f, g); }
    case Tariff =>
      if up { own, lossy := TariffUpRewrites(f, g); } else { own, lossy := TariffDownRewrites(f, g); }
    case Credentials =>
      if up { own, lossy := CredentialsUpRewrites(f, g); } else { own, lossy := CredentialsDownRewrites(f, g); }
    case ClientInfo =>
      if up { own, lossy := ClientInfoUpRewrites(f, g); } else { own, lossy := ClientInfoDownRewrites(f, g); }
    case Token =>
      own, lossy := map[], [];
      KeptRewrites(kind, up, f);
      KeptRewrites(kind, up, g);
    case AuthorizationInfo =>
      own, lossy := map[], [];
      KeptRewrites(kind, up, f);
      KeptRewrites(kind, up, g);
    case StartSession =>
      own, lossy := map[], [];
      KeptRewrites(kind, up, f);
      KeptRewrites(kind, up, g);
    case ReserveNow =>
      own, lossy := map[], [];
      KeptRewrites(kind, up, f);
      KeptRewrites(kind, up, g);
  }
}
