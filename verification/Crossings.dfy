/**
 * What a document states before a crossing it states after, member by member: costs and limits
 * under their own names, roles by their names, and a hub under its identifier. Over
 * `bridge_document` of `src/convert/wire.rs`.
 */
module Crossings {
  import opened Wrappers
  import opened Json
  import opened Codec
  import opened Convert
  import opened RoundTrip
  import opened Wire
  import opened Documents
  import Shapes
  import Old = Ocpi221
  import New = Ocpi230

  datatype Cost = TotalCost | FixedCost | EnergyCost | TimeCost | ParkingCost | ReservationCost

  function NameOf(cost: Cost): string {
    match cost
    case TotalCost => "total_cost"
    case FixedCost => "total_fixed_cost"
    case EnergyCost => "total_energy_cost"
    case TimeCost => "total_time_cost"
    case ParkingCost => "total_parking_cost"
    case ReservationCost => "total_reservation_cost"
  }

  // ---------------------------------------------------------------------------------------
  // One price
  // ---------------------------------------------------------------------------------------

  /**
   * `down` states what the 2.3.0 price `doc` does: its amount before tax and, when it has tax lines,
   * the sum of all of them on top; but an undocumented member of either name stands instead.
   */
  predicate StatedDown(doc: Json, down: Json) {
    && doc.Object? && down.Object? && DecodeNewPrice(doc).Some?
    && ("excl_vat" !in doc.fields ==> Get(down.fields, "excl_vat") == Get(doc.fields, "before_taxes"))
    && ("incl_vat" !in doc.fields ==>
          var p := DecodeNewPrice(doc).value;
          Get(down.fields, "incl_vat") == if p.taxes == [] then None else Some(Number(WithTaxes(p))))
  }

  lemma PriceStatedDown(doc: Json)
    requires DecodeNewPrice(doc).Some?
    ensures StatedDown(doc, EncodeOldPrice(PriceDown(DecodeNewPrice(doc).value).value))
  {
    hide Decoded, FoldedLines;
    var p := DecodeNewPrice(doc).value;
    PriceAmountsSurvive(p);
    hide WithTaxes, New.Price.AfterTaxes;
    var down := PriceDown(p).value;
    assert NumberOf(Get(doc.fields, "before_taxes")) == Some(p.beforeTaxes);
    assert "excl_vat" !in doc.fields ==> "excl_vat" !in p.rest;
    assert "incl_vat" !in doc.fields ==> "incl_vat" !in p.rest;
  }

  /** The price `up` states what the 2.2.1 price `doc` does: its amount without VAT, and what VAT adds to it. */
  predicate StatedUp(doc: Json, up: Json) {
    && doc.Object? && up.Object? && DecodeOldPrice(doc).Some?
    && ("before_taxes" !in doc.fields ==> Get(up.fields, "before_taxes") == Get(doc.fields, "excl_vat"))
    && ("taxes" !in doc.fields ==>
          var p := DecodeOldPrice(doc).value;
          Get(up.fields, "taxes")
          == if p.inclVat.None? then None
             else Some(Array([Object(map["name" := Str("VAT"), "amount" := Number(p.inclVat.value - p.exclVat)])])))
  }

  lemma PriceStatedUp(doc: Json)
    requires DecodeOldPrice(doc).Some?
    ensures StatedUp(doc, EncodeNewPrice(PriceUp(DecodeOldPrice(doc).value).value))
  {
    hide Decoded;
    var p := DecodeOldPrice(doc).value;
    var up := PriceUp(p).value;
    if p.inclVat.Some? {
      OneTaxWritten(p.inclVat.value - p.exclVat);
      assert EncodeAll(up.taxes, EncodeTaxAmount) == [EncodeTaxAmount(up.taxes[0])];
    }
    hide EncodeTaxAmount;
    assert NumberOf(Get(doc.fields, "excl_vat")) == Some(p.exclVat);
    assert "before_taxes" !in doc.fields ==> "before_taxes" !in p.rest;
    assert "taxes" !in doc.fields ==> "taxes" !in p.rest;
  }

  lemma OneTaxWritten(amount: real)
    ensures EncodeTaxAmount(New.TaxAmount(IMPLIED_VAT_NAME, None, None, amount, map[]))
            == Object(map["name" := Str("VAT"), "amount" := Number(amount)])
  {
  }

  // ---------------------------------------------------------------------------------------
  // Every cost of a document
  // ---------------------------------------------------------------------------------------

  /** A cost is there after a crossing exactly when it was, and states the same. */
  predicate CrossesDown(was: Option<Json>, now: Option<Json>) {
    (now.Some? <==> was.Some? && !was.value.Null?) && (now.Some? ==> StatedDown(was.value, now.value))
  }

  predicate CrossesUp(was: Option<Json>, now: Option<Json>) {
    (now.Some? <==> was.Some? && !was.value.Null?) && (now.Some? ==> StatedUp(was.value, now.value))
  }

  lemma MemberCrossesDown(was: Option<Json>, name: string, at: string)
    requires Optional(was, NewPriceIn).Some?
    ensures CrossesDown(was, Get(OldPriceMember(name, CostDown(Optional(was, NewPriceIn).value, at).value), name))
  {
    hide StatedDown, DecodeNewPrice, EncodeOldPrice, PriceDown;
    if was.Some? && !was.value.Null? {
      PriceStatedDown(was.value);
    }
  }

  lemma MemberCrossesUp(was: Option<Json>, name: string)
    requires Optional(was, OldPriceIn).Some?
    ensures CrossesUp(was, Get(NewPriceMember(name, CostUp(Optional(was, OldPriceIn).value)), name))
  {
    hide StatedUp, DecodeOldPrice, EncodeNewPrice, PriceUp;
    if was.Some? && !was.value.Null? {
      PriceStatedUp(was.value);
    }
  }

  /** What is kept beside the fields an object spells out has none of their names. */
  lemma KeptBeside(kind: ObjectKind, f: Fields, own: set<string>)
    requires Shared(kind, f - own).Some?
    ensures Shared(kind, f - own).value.Keys <= f.Keys - own
  {
    hide SharedFields;
    forall k | k in Shared(kind, f - own).value
      ensures k in f && k !in own
    {
      Shapes.WrittenMembers(SharedFields(kind), f - own, k);
    }
  }

  /** Every cost of a 2.3.0 CDR goes down under its own name. */
  lemma CdrCostsGoDown(doc: Json, cost: Cost)
    requires DecodeNewCdr(doc).Some?
    ensures doc.Object? && DownCdr(doc).Some? && DownCdr(doc).value.value.Object?
    ensures CrossesDown(Get(doc.fields, NameOf(cost)), Get(DownCdr(doc).value.value.fields, NameOf(cost)))
  {
    hide Shared, Decoded, Optional, NewPriceIn, OldPriceMember, CostDown, PriceDown, CrossesDown, OldCdrMembers,
         EncodeOldPrice, ConvertAll;
    var c := DecodeNewCdr(doc).value;
    var down := CdrDown(c).value;
    KeptBeside(ObjectKind.Cdr, doc.fields, NewFields(ObjectKind.Cdr));
    OldCdrMembersApart(down);
    assert NameOf(cost) in NewFields(ObjectKind.Cdr);
    assert NameOf(cost) !in down.rest;
    assert Get(EncodeOldCdr(down).fields, NameOf(cost)) == Get(OldCdrMembers(down), NameOf(cost));
    match cost {
      case TotalCost => TotalCrossesDown(Get(doc.fields, "total_cost"));
      case FixedCost => MemberCrossesDown(Get(doc.fields, "total_fixed_cost"), "total_fixed_cost", "/total_fixed_cost");
      case EnergyCost =>
        MemberCrossesDown(Get(doc.fields, "total_energy_cost"), "total_energy_cost", "/total_energy_cost");
      case TimeCost => MemberCrossesDown(Get(doc.fields, "total_time_cost"), "total_time_cost", "/total_time_cost");
      case ParkingCost =>
        MemberCrossesDown(Get(doc.fields, "total_parking_cost"), "total_parking_cost", "/total_parking_cost");
      case ReservationCost =>
        MemberCrossesDown(Get(doc.fields, "total_reservation_cost"), "total_reservation_cost",
                          "/total_reservation_cost");
    }
  }

  lemma TotalCrossesDown(was: Option<Json>)
    requires NewPriceIn(was).Some?
    ensures CrossesDown(was, Some(EncodeOldPrice(PriceDown(NewPriceIn(was).value).value)))
  {
    hide StatedDown, EncodeOldPrice, PriceDown;
    PriceStatedDown(was.value);
  }

  lemma TotalCrossesUp(was: Option<Json>)
    requires OldPriceIn(was).Some?
    ensures CrossesUp(was, Some(EncodeNewPrice(PriceUp(OldPriceIn(was).value).value)))
  {
    hide StatedUp, EncodeNewPrice, PriceUp;
    PriceStatedUp(was.value);
  }

  /** And every cost of a 2.2.1 CDR goes up under its own. */
  lemma CdrCostsGoUp(doc: Json, cost: Cost)
    requires DecodeOldCdr(doc).Some?
    ensures doc.Object? && UpCdr(doc).Some? && UpCdr(doc).value.value.Object?
    ensures CrossesUp(Get(doc.fields, NameOf(cost)), Get(UpCdr(doc).value.value.fields, NameOf(cost)))
  {
    hide Shared, Decoded, Optional, OldPriceIn, NewPriceMember, CostUp, PriceUp, CrossesUp, NewCdrMembers,
         EncodeNewPrice, ConvertAll;
    var c := DecodeOldCdr(doc).value;
    var up := CdrUp(c).value;
    KeptBeside(ObjectKind.Cdr, doc.fields, OldFields(ObjectKind.Cdr));
    NewCdrMembersApart(up);
    assert NameOf(cost) in OldFields(ObjectKind.Cdr);
    assert NameOf(cost) !in up.rest;
    assert Get(EncodeNewCdr(up).fields, NameOf(cost)) == Get(NewCdrMembers(up), NameOf(cost));
    match cost {
      case TotalCost => TotalCrossesUp(Get(doc.fields, "total_cost"));
      case FixedCost => MemberCrossesUp(Get(doc.fields, "total_fixed_cost"), "total_fixed_cost");
      case EnergyCost => MemberCrossesUp(Get(doc.fields, "total_energy_cost"), "total_energy_cost");
      case TimeCost => MemberCrossesUp(Get(doc.fields, "total_time_cost"), "total_time_cost");
      case ParkingCost => MemberCrossesUp(Get(doc.fields, "total_parking_cost"), "total_parking_cost");
      case ReservationCost => MemberCrossesUp(Get(doc.fields, "total_reservation_cost"), "total_reservation_cost");
    }
  }

  /** So does the cost of a session, in either direction. */
  lemma SessionCostCrosses(doc: Json)
    ensures DecodeNewSession(doc).Some? ==>
              doc.Object? && DownSession(doc).Some? && DownSession(doc).value.value.Object?
              && CrossesDown(Get(doc.fields, "total_cost"), Get(DownSession(doc).value.value.fields, "total_cost"))
    ensures DecodeOldSession(doc).Some? ==>
              doc.Object? && UpSession(doc).Some? && UpSession(doc).value.value.Object?
              && CrossesUp(Get(doc.fields, "total_cost"), Get(UpSession(doc).value.value.fields, "total_cost"))
  {
    hide Shared, Optional, NewPriceIn, OldPriceIn, CostDown, CostUp, PriceDown, PriceUp, CrossesDown, CrossesUp,
         EncodeOldPrice, EncodeNewPrice, OldPriceMember, NewPriceMember;
    if DecodeNewSession(doc).Some? {
      KeptBeside(ObjectKind.Session, doc.fields, NewFields(ObjectKind.Session));
      MemberCrossesDown(Get(doc.fields, "total_cost"), "total_cost", "/total_cost");
    }
    if DecodeOldSession(doc).Some? {
      KeptBeside(ObjectKind.Session, doc.fields, OldFields(ObjectKind.Session));
      MemberCrossesUp(Get(doc.fields, "total_cost"), "total_cost");
    }
  }

  // ---------------------------------------------------------------------------------------
  // The limits of a tariff
  // ---------------------------------------------------------------------------------------

  /** A member that is there and not null. */
  function Present(f: Fields, name: string): Option<Json> {
    if name in f && !f[name].Null? then Some(f[name]) else None
  }

  /** A 2.2.1 price and a 2.3.0 limit that state the same two amounts; an undocumented member stands instead. */
  predicate SameLimit(price: Json, limit: Json, up: bool) {
    && price.Object? && limit.Object?
    && (if up then
          && ("before_taxes" !in price.fields ==>
                Get(limit.fields, "before_taxes") == Get(price.fields, "excl_vat"))
          && ("after_taxes" !in price.fields ==>
                Get(limit.fields, "after_taxes") == Present(price.fields, "incl_vat"))
        else
          && ("excl_vat" !in limit.fields ==>
                Get(price.fields, "excl_vat") == Get(limit.fields, "before_taxes"))
          && ("incl_vat" !in limit.fields ==>
                Get(price.fields, "incl_vat") == Present(limit.fields, "after_taxes")))
  }

  lemma LimitGoesDown(was: Option<Json>, name: string)
    requires Optional(was, PriceLimitIn).Some?
    ensures var now := Get(OldPriceMember(name, LimitDown(Optional(was, PriceLimitIn).value)), name);
            (now.Some? <==> was.Some? && !was.value.Null?) && (now.Some? ==> SameLimit(now.value, was.value, false))
  {
  }

  lemma LimitGoesUp(was: Option<Json>, name: string)
    requires Optional(was, OldPriceIn).Some?
    ensures var now := Get(PriceLimitMember(name, LimitUp(Optional(was, OldPriceIn).value)), name);
            (now.Some? <==> was.Some? && !was.value.Null?) && (now.Some? ==> SameLimit(was.value, now.value, true))
  {
  }

  function LimitName(min: bool): string {
    if min then "min_price" else "max_price"
  }

  /** The limits of a 2.3.0 tariff go down under their own names. */
  lemma TariffLimitsGoDown(doc: Json, min: bool)
    requires DecodeNewTariff(doc).Some?
    ensures doc.Object? && DownTariff(doc).Some? && DownTariff(doc).value.value.Object?
    ensures var was := Get(doc.fields, LimitName(min));
            var now := Get(DownTariff(doc).value.value.fields, LimitName(min));
            (now.Some? <==> was.Some? && !was.value.Null?) && (now.Some? ==> SameLimit(now.value, was.value, false))
  {
    hide Shared, Optional, PriceLimitIn, OldPriceMember, SameLimit, LimitDown;
    KeptBeside(ObjectKind.Tariff, doc.fields, NewFields(ObjectKind.Tariff));
    assert LimitName(min) in NewFields(ObjectKind.Tariff);
    LimitGoesDown(Get(doc.fields, LimitName(min)), LimitName(min));
  }

  /** Those of a 2.2.1 tariff go up under theirs, and the tariff says that its prices include no tax. */
  lemma TariffLimitsGoUp(doc: Json, min: bool)
    requires DecodeOldTariff(doc).Some?
    ensures doc.Object? && UpTariff(doc).Some? && UpTariff(doc).value.value.Object?
    ensures var was := Get(doc.fields, LimitName(min));
            var now := Get(UpTariff(doc).value.value.fields, LimitName(min));
            (now.Some? <==> was.Some? && !was.value.Null?) && (now.Some? ==> SameLimit(was.value, now.value, true))
    ensures "tax_included" !in doc.fields ==>
              Get(UpTariff(doc).value.value.fields, "tax_included") == Some(Str("NO"))
  {
    hide Shared, Optional, OldPriceIn, PriceLimitMember, NumberMember, SameLimit, LimitUp;
    KeptBeside(ObjectKind.Tariff, doc.fields, OldFields(ObjectKind.Tariff));
    assert LimitName(min) in OldFields(ObjectKind.Tariff);
    LimitGoesUp(Get(doc.fields, LimitName(min)), LimitName(min));
  }

  // ---------------------------------------------------------------------------------------
  // Roles and hubs
  // ---------------------------------------------------------------------------------------

  /** The role of hub client info crosses under its name, but `HUB` goes up as `OTHER`. */
  lemma RolesCross(doc: Json)
    ensures DecodeOldClientInfo(doc).Some? ==>
              doc.Object? && UpClientInfo(doc).Some? && UpClientInfo(doc).value.value.Object?
              && Get(UpClientInfo(doc).value.value.fields, "role")
                 == if Get(doc.fields, "role") == Some(Str("HUB")) then Some(Str("OTHER")) else Get(doc.fields, "role")
    ensures DecodeNewClientInfo(doc).Some? ==>
              doc.Object? && DownClientInfo(doc).Some? && DownClientInfo(doc).value.value.Object?
              && Get(DownClientInfo(doc).value.value.fields, "role") == Get(doc.fields, "role")
  {
    hide Shared;
    if DecodeOldClientInfo(doc).Some? {
      KeptBeside(ObjectKind.ClientInfo, doc.fields, OldFields(ObjectKind.ClientInfo));
    }
    if DecodeNewClientInfo(doc).Some? {
      KeptBeside(ObjectKind.ClientInfo, doc.fields, NewFields(ObjectKind.ClientInfo));
    }
  }

  /** The member of a role entry that holds a text. */
  predicate HasText(entry: Json, name: string, text: string) {
    entry.Object? && Get(entry.fields, name) == Some(Str(text))
  }

  /** Entry `k` is the first hub role of the list. */
  predicate FirstHub(entries: seq<Json>, k: nat) {
    && k < |entries| && HasText(entries[k], "role", "HUB")
    && forall j :: 0 <= j < k ==> !HasText(entries[j], "role", "HUB")
  }

  lemma EntryRole(entry: Json)
    requires DecodeOldRoleEntry(entry).Some?
    ensures DecodeOldRoleEntry(entry).value.role.Hub? <==> HasText(entry, "role", "HUB")
    ensures HasText(entry, "country_code", DecodeOldRoleEntry(entry).value.countryCode)
    ensures HasText(entry, "party_id", DecodeOldRoleEntry(entry).value.partyId)
  {
    hide DetailsOf;
  }

  /** The hub identifier comes from the first hub role of the list. */
  lemma {:induction false} FirstHubIs(roles: seq<Old.CredentialsRole>, k: nat)
    requires k < |roles| && roles[k].role.Hub? && forall j :: 0 <= j < k ==> !roles[j].role.Hub?
    ensures HubPartyId(roles) == Some(roles[k].countryCode + roles[k].partyId)
  {
    if k > 0 {
      FirstHubIs(roles[1..], k - 1);
    }
  }

  /**
   * Going up, credentials name as their hub the country code and party of their first hub role, or
   * no hub when they have none.
   */
  lemma HubGoesUp(doc: Json)
    requires DecodeOldCredentials(doc).Some? && "hub_party_id" !in doc.fields
    ensures UpCredentials(doc).Some? && UpCredentials(doc).value.value.Object?
    ensures ItemsOf(Get(doc.fields, "roles")).Some?
    ensures var entries := ItemsOf(Get(doc.fields, "roles")).value;
            var hub := Get(UpCredentials(doc).value.value.fields, "hub_party_id");
            && (hub.None? <==> forall k: nat :: !FirstHub(entries, k))
            && forall k: nat, country, party ::
                 (FirstHub(entries, k) && HasText(entries[k], "country_code", country)
                  && HasText(entries[k], "party_id", party)) ==> hub == Some(Str(country + party))
  {
    hide Shared, DecodeOldRoleEntry, RolesUp, HubPartyId;
    var c := DecodeOldCredentials(doc).value;
    var entries := ItemsOf(Get(doc.fields, "roles")).value;
    KeptBeside(ObjectKind.Credentials, doc.fields, OldFields(ObjectKind.Credentials));
    HubWritten(c, doc.fields);
    forall k | 0 <= k < |entries|
      ensures c.roles[k].role.Hub? <==> HasText(entries[k], "role", "HUB")
      ensures HasText(entries[k], "country_code", c.roles[k].countryCode)
      ensures HasText(entries[k], "party_id", c.roles[k].partyId)
    {
      EntryRole(entries[k]);
    }
    hide DecodeOldCredentials, UpCredentials;
    forall k: nat | FirstHub(entries, k)
      ensures HubPartyId(c.roles) == Some(c.roles[k].countryCode + c.roles[k].partyId)
    {
      FirstHubIs(c.roles, k);
    }
    if HubPartyId(c.roles).Some? {
      var k := SomeFirstHub(c.roles);
      assert FirstHub(entries, k);
    }
  }

  lemma HubWritten(c: Old.Credentials, f: Fields)
    requires "hub_party_id" !in f && c.rest.Keys <= f.Keys
    ensures Get(EncodeNewCredentials(CredentialsUp(c).value).fields, "hub_party_id")
            == if HubPartyId(c.roles).None? then None else Some(Str(HubPartyId(c.roles).value))
  {
    hide HubPartyId, RolesUp, EncodeAll;
  }

  lemma {:induction false} SomeFirstHub(roles: seq<Old.CredentialsRole>) returns (k: nat)
    requires HubPartyId(roles).Some?
    ensures k < |roles| && roles[k].role.Hub? && forall j :: 0 <= j < k ==> !roles[j].role.Hub?
  {
    if roles[0].role.Hub? {
      return 0;
    }
    var rest := SomeFirstHub(roles[1..]);
    forall j | 0 <= j < rest + 1
      ensures !roles[j].role.Hub?
    {
      assert j > 0 ==> roles[j] == roles[1..][j - 1];
    }
    k := rest + 1;
  }

  /**
   * Going down, a hub identifier of five printable characters becomes one more entry at the end, a
   * hub role with its first two as the country code, the others as the party, and the business
   * details of the first role.
   */
  lemma HubGoesDown(doc: Json, id: string)
    requires DecodeNewCredentials(doc).Some? && Get(doc.fields, "hub_party_id") == Some(Str(id))
    requires |id| == 5 && (forall i :: 0 <= i < 5 ==> ' ' <= id[i] <= '~')
    requires ItemsOf(Get(doc.fields, "roles")) != Some([])
    ensures DownCredentials(doc).Some? && DownCredentials(doc).value.value.Object?
    ensures var was := ItemsOf(Get(doc.fields, "roles"));
            var now := ItemsOf(Get(DownCredentials(doc).value.value.fields, "roles"));
            && was.Some? && now.Some? && |now.value| == |was.value| + 1
            && var hub := now.value[|was.value|];
               && HasText(hub, "role", "HUB") && HasText(hub, "country_code", id[..2])
               && HasText(hub, "party_id", id[2..])
               && now.value[0].Object?
               && Get(hub.fields, "business_details") == Get(now.value[0].fields, "business_details")
  {
    hide *;
    var c := CredentialsRead(doc, id);
    var hub := HubAdded(c, id);
    RolesWritten(CredentialsDown(c).value);
    HubEntry(hub);
    DetailsGoDown(c.roles[0]);
    EncodedLast(RolesDown(c.roles), hub);
    assert RolesDown(c.roles)[0] == RoleEntryDown(c.roles[0]);
  }

  lemma CredentialsRead(doc: Json, id: string) returns (c: New.Credentials)
    requires DecodeNewCredentials(doc).Some? && Get(doc.fields, "hub_party_id") == Some(Str(id))
    requires ItemsOf(Get(doc.fields, "roles")) != Some([])
    ensures var was := ItemsOf(Get(doc.fields, "roles"));
            was.Some? && |c.roles| == |was.value| && c.roles != [] && c.hubPartyId == Some(id)
    ensures "roles" !in c.rest && "business_details" !in c.roles[0].rest
    ensures DownCredentials(doc).Some?
            && DownCredentials(doc).value.value == EncodeOldCredentials(CredentialsDown(c).value)
  {
    hide Shared, DecodeNewRoleEntry, CredentialsDown, EncodeOldCredentials;
    c := DecodeNewCredentials(doc).value;
    KeptBeside(ObjectKind.Credentials, doc.fields, NewFields(ObjectKind.Credentials));
    EntryRead(ItemsOf(Get(doc.fields, "roles")).value[0]);
  }

  lemma EntryRead(entry: Json)
    requires DecodeNewRoleEntry(entry).Some?
    ensures "business_details" !in DecodeNewRoleEntry(entry).value.rest
  {
    hide DetailsOf;
  }

  lemma HubAdded(c: New.Credentials, id: string) returns (hub: Old.CredentialsRole)
    requires c.hubPartyId == Some(id) && c.roles != []
    requires |id| == 5 && (forall i :: 0 <= i < 5 ==> ' ' <= id[i] <= '~')
    ensures hub == Old.CredentialsRole(Old.Hub, c.roles[0].businessDetails, id[2..], id[..2], map[])
    ensures CredentialsDown(c).value.roles == RolesDown(c.roles) + [hub] && CredentialsDown(c).value.rest == c.rest
  {
    hide RolesDown;
    hub := Old.CredentialsRole(Old.Hub, c.roles[0].businessDetails, id[2..], id[..2], map[]);
  }

  lemma RolesWritten(c: Old.Credentials)
    requires "roles" !in c.rest
    ensures EncodeOldCredentials(c).Object?
    ensures ItemsOf(Get(EncodeOldCredentials(c).fields, "roles")) == Some(EncodeAll(c.roles, EncodeOldRoleEntry))
  {
    hide EncodeAll;
  }

  lemma EncodedLast(roles: seq<Old.CredentialsRole>, hub: Old.CredentialsRole)
    ensures var entries := EncodeAll(roles + [hub], EncodeOldRoleEntry);
            && |entries| == |roles| + 1 && entries[|roles|] == EncodeOldRoleEntry(hub)
            && forall k :: 0 <= k < |roles| ==> entries[k] == EncodeOldRoleEntry(roles[k])
  {
  }

  lemma DetailsGoDown(r: New.CredentialsRole)
    requires "business_details" !in r.rest
    ensures EncodeOldRoleEntry(RoleEntryDown(r)).Object?
    ensures Get(EncodeOldRoleEntry(RoleEntryDown(r)).fields, "business_details") == Some(r.businessDetails)
  {
  }

  lemma HubEntry(hub: Old.CredentialsRole)
    requires hub.role.Hub? && hub.rest == map[]
    ensures var entry := EncodeOldRoleEntry(hub);
            && entry.Object? && HasText(entry, "role", "HUB") && HasText(entry, "country_code", hub.countryCode)
            && HasText(entry, "party_id", hub.partyId)
            && Get(entry.fields, "business_details") == Some(hub.businessDetails)
  {
  }
}
