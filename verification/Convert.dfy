/**
 * Carrying typed objects between OCPI 2.2.1 and 2.3.0 with an account of what was lost.
 * Models `src/convert/mod.rs` and `src/convert/v2_2_1_v2_3_0.rs`.
 */
module Convert {
  import opened Wrappers
  import opened Text
  import Old = Ocpi221
  import New = Ocpi230
  import Tariffs

  /** Where each loss was, in document order. The reasons are text for people and are not modelled. */
  type Report = seq<string>

  /** A report in the coordinates of an enclosing object. */
  function Lift(prefix: string, report: Report): (r: Report)
    ensures |r| == |report|
    ensures forall i :: 0 <= i < |r| ==> r[i] == prefix + report[i]
  {
    seq(|report|, i requires 0 <= i < |report| => prefix + report[i])
  }

  class Lossy {
    var pointers: Report

    constructor ()
      ensures pointers == []
    {
      pointers := [];
    }

    method Record(pointer: string)
      modifies this
      ensures pointers == old(pointers) + [pointer]
    {
      pointers := pointers + [pointer];
    }

    method Absorb(prefix: string, other: Report)
      modifies this
      ensures pointers == old(pointers) + Lift(prefix, other)
    {
      for i := 0 to |other|
        invariant pointers == old(pointers) + Lift(prefix, other)[..i]
      {
        pointers := pointers + [prefix + other[i]];
      }
    }
  }

  datatype Converted<+T> = Converted(value: T, lossy: Report)

  function Lossless<T>(value: T): Converted<T> {
    Converted(value, [])
  }

  /** A report of one loss, when there is one. */
  function When(lost: bool, pointer: string): Report {
    if lost then [pointer] else []
  }

  /** Converting a list element by element, each element's losses under its own index. */
  function ConvertAll<T, U>(convert: T -> Converted<U>, items: seq<T>, at: string): Converted<seq<U>> {
    if items == [] then Lossless([])
    else
      var n := |items| - 1;
      var init := ConvertAll(convert, items[..n], at);
      var last := convert(items[n]);
      Converted(init.value + [last.value], init.lossy + Lift(at + Numeral(n), last.lossy))
  }

  lemma ConvertNone<T, U>(convert: T -> Converted<U>, items: seq<T>, at: string)
    ensures ConvertAll(convert, items[..0], at) == Lossless([])
  {
  }

  lemma ConvertAllStep<T, U>(convert: T -> Converted<U>, items: seq<T>, at: string, n: nat)
    requires n < |items|
    ensures var init := ConvertAll(convert, items[..n], at);
            var last := convert(items[n]);
            ConvertAll(convert, items[..n + 1], at)
            == Converted(init.value + [last.value], init.lossy + Lift(at + Numeral(n), last.lossy))
  {
    assert items[..n + 1][..n] == items[..n];
  }

  lemma AppendLater(a: Report, b: Report, c: Report)
    ensures a + b + c == a + (b + c)
  {
  }

  // ---------------------------------------------------------------------------------------
  // Price
  // ---------------------------------------------------------------------------------------

  const IMPLIED_VAT_NAME := "VAT"

  function PriceUp(p: Old.Price): Converted<New.Price> {
    var taxes :=
      if p.inclVat.None? then []
      else [New.TaxAmount(IMPLIED_VAT_NAME, None, None, p.inclVat.value - p.exclVat, map[])];
    Lossless(New.Price(p.exclVat, taxes, p.rest))
  }

  /** Whether folding this tax line into `incl_vat` loses something a 2.2.1 price cannot say. */
  predicate Folded(taxes: seq<New.TaxAmount>, i: nat)
    requires i < |taxes|
  {
    |taxes| > 1 || taxes[i].name != IMPLIED_VAT_NAME || taxes[i].percentage.Some? || taxes[i].accountNumber.Some?
  }

  /** The losses of the first `n` tax lines. */
  function FoldedLines(taxes: seq<New.TaxAmount>, n: nat): Report
    requires n <= |taxes|
  {
    if n == 0 then []
    else FoldedLines(taxes, n - 1) + When(Folded(taxes, n - 1), "/taxes/" + Numeral(n - 1))
  }

  function PriceDown(p: New.Price): Converted<Old.Price> {
    Converted(
      Old.Price(p.beforeTaxes, if p.taxes == [] then None else Some(p.AfterTaxes()), p.rest),
      FoldedLines(p.taxes, |p.taxes|))
  }

  method DowngradePrice(p: New.Price) returns (r: Converted<Old.Price>)
    ensures r == PriceDown(p)
  {
    var lossy := new Lossy();
    var inclVat := if p.taxes == [] then None else Some(p.AfterTaxes());
    for i := 0 to |p.taxes|
      invariant fresh(lossy)
      invariant lossy.pointers == FoldedLines(p.taxes, i)
    {
      var tax := p.taxes[i];
      var carriesDetail := tax.percentage.Some? || tax.accountNumber.Some?;
      if |p.taxes| > 1 || tax.name != IMPLIED_VAT_NAME || carriesDetail {
        lossy.Record("/taxes/" + Numeral(i));
      }
    }
    return Converted(Old.Price(p.beforeTaxes, inclVat, p.rest), lossy.pointers);
  }

  /** An optional price field, its losses under the field's name. */
  function CostUp(p: Option<Old.Price>): Option<New.Price> {
    if p.None? then None else Some(PriceUp(p.value).value)
  }

  function CostDown(p: Option<New.Price>, at: string): Converted<Option<Old.Price>> {
    if p.None? then Lossless(None)
    else
      var converted := PriceDown(p.value);
      Converted(Some(converted.value), Lift(at, converted.lossy))
  }

  // ---------------------------------------------------------------------------------------
  // Locations
  // ---------------------------------------------------------------------------------------

  function ConnectorUp(c: Old.Connector): Converted<New.Connector> {
    Lossless(New.Connector([], c.rest))
  }

  function ConnectorDown(c: New.Connector): Converted<Old.Connector> {
    Converted(Old.Connector(c.rest), When(c.capabilities != [], "/capabilities"))
  }

  function EvseUp(e: Old.Evse): Converted<New.Evse> {
    var connectors := ConvertAll(ConnectorUp, e.connectors, "/connectors/");
    Converted(New.Evse(connectors.value, [], [], e.rest), connectors.lossy)
  }

  function EvseDown(e: New.Evse): Converted<Old.Evse> {
    var connectors := ConvertAll(ConnectorDown, e.connectors, "/connectors/");
    Converted(
      Old.Evse(connectors.value, e.rest),
      When(e.parking != [], "/parking")
      + When(e.acceptedServiceProviders != [], "/accepted_service_providers")
      + connectors.lossy)
  }

  function LocationUp(l: Old.Location): Converted<New.Location> {
    var evses := ConvertAll(EvseUp, l.evses, "/evses/");
    Converted(New.Location(evses.value, [], None, l.rest), evses.lossy)
  }

  function LocationDown(l: New.Location): Converted<Old.Location> {
    var evses := ConvertAll(EvseDown, l.evses, "/evses/");
    Converted(
      Old.Location(evses.value, l.rest),
      When(l.parkingPlaces != [], "/parking_places") + When(l.helpPhone.Some?, "/help_phone") + evses.lossy)
  }

  method UpgradeEvse(e: Old.Evse) returns (r: Converted<New.Evse>)
    ensures r == EvseUp(e)
  {
    hide Numeral, ConvertAll;
    var lossy := new Lossy();
    var connectors := [];
    ConvertNone(ConnectorUp, e.connectors, "/connectors/");
    for i := 0 to |e.connectors|
      invariant fresh(lossy)
      invariant Converted(connectors, lossy.pointers) == ConvertAll(ConnectorUp, e.connectors[..i], "/connectors/")
    {
      var converted := ConnectorUp(e.connectors[i]);
      lossy.Absorb("/connectors/" + Numeral(i), converted.lossy);
      connectors := connectors + [converted.value];
      ConvertAllStep(ConnectorUp, e.connectors, "/connectors/", i);
    }
    assert e.connectors[..|e.connectors|] == e.connectors;
    return Converted(New.Evse(connectors, [], [], e.rest), lossy.pointers);
  }

  method DowngradeEvse(e: New.Evse) returns (r: Converted<Old.Evse>)
    ensures r == EvseDown(e)
  {
    hide Numeral, ConvertAll;
    var lossy := new Lossy();
    if e.parking != [] {
      lossy.Record("/parking");
    }
    if e.acceptedServiceProviders != [] {
      lossy.Record("/accepted_service_providers");
    }
    ghost var own := lossy.pointers;
    var connectors := [];
    ConvertNone(ConnectorDown, e.connectors, "/connectors/");
    for i := 0 to |e.connectors|
      invariant fresh(lossy)
      invariant var done := ConvertAll(ConnectorDown, e.connectors[..i], "/connectors/");
                connectors == done.value && lossy.pointers == own + done.lossy
    {
      var converted := ConnectorDown(e.connectors[i]);
      lossy.Absorb("/connectors/" + Numeral(i), converted.lossy);
      connectors := connectors + [converted.value];
      ConvertAllStep(ConnectorDown, e.connectors, "/connectors/", i);
      AppendLater(own, ConvertAll(ConnectorDown, e.connectors[..i], "/connectors/").lossy,
          Lift("/connectors/" + Numeral(i), converted.lossy));
    }
    assert e.connectors[..|e.connectors|] == e.connectors;
    return Converted(Old.Evse(connectors, e.rest), lossy.pointers);
  }

  method UpgradeLocation(l: Old.Location) returns (r: Converted<New.Location>)
    ensures r == LocationUp(l)
  {
    hide Numeral, ConvertAll, EvseUp;
    var lossy := new Lossy();
    var evses := [];
    ConvertNone(EvseUp, l.evses, "/evses/");
    for i := 0 to |l.evses|
      invariant fresh(lossy)
      invariant Converted(evses, lossy.pointers) == ConvertAll(EvseUp, l.evses[..i], "/evses/")
    {
      var converted := UpgradeEvse(l.evses[i]);
      lossy.Absorb("/evses/" + Numeral(i), converted.lossy);
      evses := evses + [converted.value];
      ConvertAllStep(EvseUp, l.evses, "/evses/", i);
    }
    assert l.evses[..|l.evses|] == l.evses;
    return Converted(New.Location(evses, [], None, l.rest), lossy.pointers);
  }

  method DowngradeLocation(l: New.Location) returns (r: Converted<Old.Location>)
    ensures r == LocationDown(l)
  {
    hide Numeral, ConvertAll, EvseDown;
    var lossy := new Lossy();
    if l.parkingPlaces != [] {
      lossy.Record("/parking_places");
    }
    if l.helpPhone.Some? {
      lossy.Record("/help_phone");
    }
    ghost var own := lossy.pointers;
    var evses := [];
    ConvertNone(EvseDown, l.evses, "/evses/");
    for i := 0 to |l.evses|
      invariant fresh(lossy)
      invariant var done := ConvertAll(EvseDown, l.evses[..i], "/evses/");
                evses == done.value && lossy.pointers == own + done.lossy
    {
      var converted := DowngradeEvse(l.evses[i]);
      lossy.Absorb("/evses/" + Numeral(i), converted.lossy);
      evses := evses + [converted.value];
      ConvertAllStep(EvseDown, l.evses, "/evses/", i);
      AppendLater(own, ConvertAll(EvseDown, l.evses[..i], "/evses/").lossy,
          Lift("/evses/" + Numeral(i), converted.lossy));
    }
    assert l.evses[..|l.evses|] == l.evses;
    return Converted(Old.Location(evses, l.rest), lossy.pointers);
  }

  // ---------------------------------------------------------------------------------------
  // Tariffs, sessions and CDRs
  // ---------------------------------------------------------------------------------------

  function LimitUp(p: Option<Old.Price>): Option<New.PriceLimit> {
    match p
    case None => None
    case Some(price) => Some(New.PriceLimit(price.exclVat, price.inclVat, price.rest))
  }

  function LimitDown(p: Option<New.PriceLimit>): Option<Old.Price> {
    match p
    case None => None
    case Some(limit) => Some(Old.Price(limit.beforeTaxes, limit.afterTaxes, limit.rest))
  }

  /** A 2.2.1 price is defined as excluding VAT, so the tariff says `tax_included: NO`. */
  function TariffUp(t: Old.Tariff): Converted<New.Tariff> {
    Lossless(New.Tariff(LimitUp(t.minPrice), LimitUp(t.maxPrice), None, Tariffs.No, t.rest))
  }

  function TariffDown(t: New.Tariff): Converted<Old.Tariff> {
    Converted(
      Old.Tariff(LimitDown(t.minPrice), LimitDown(t.maxPrice), t.rest),
      When(!t.taxIncluded.No?, "/tax_included") + When(t.preauthorizeAmount.Some?, "/preauthorize_amount"))
  }

  function SessionUp(s: Old.Session): Converted<New.Session> {
    Lossless(New.Session(CostUp(s.totalCost), s.rest))
  }

  function SessionDown(s: New.Session): Converted<Old.Session> {
    var totalCost := CostDown(s.totalCost, "/total_cost");
    Converted(Old.Session(totalCost.value, s.rest), totalCost.lossy)
  }

  function CdrUp(c: Old.Cdr): Converted<New.Cdr> {
    var tariffs := ConvertAll(TariffUp, c.tariffs, "/tariffs/");
    Converted(
      New.Cdr(None, tariffs.value, PriceUp(c.totalCost).value, CostUp(c.totalFixedCost), CostUp(c.totalEnergyCost),
              CostUp(c.totalTimeCost), CostUp(c.totalParkingCost), CostUp(c.totalReservationCost), c.rest),
      tariffs.lossy)
  }

  function CdrDown(c: New.Cdr): Converted<Old.Cdr> {
    var tariffs := ConvertAll(TariffDown, c.tariffs, "/tariffs/");
    var total := PriceDown(c.totalCost);
    var fixed := CostDown(c.totalFixedCost, "/total_fixed_cost");
    var energy := CostDown(c.totalEnergyCost, "/total_energy_cost");
    var time := CostDown(c.totalTimeCost, "/total_time_cost");
    var parking := CostDown(c.totalParkingCost, "/total_parking_cost");
    var reservation := CostDown(c.totalReservationCost, "/total_reservation_cost");
    Converted(
      Old.Cdr(tariffs.value, total.value, fixed.value, energy.value, time.value, parking.value,
              reservation.value, c.rest),
      tariffs.lossy + Lift("/total_cost", total.lossy) + fixed.lossy + energy.lossy + time.lossy
      + parking.lossy + reservation.lossy + When(c.bookingId.Some?, "/booking_id"))
  }

  method UpgradeCdr(c: Old.Cdr) returns (r: Converted<New.Cdr>)
    ensures r == CdrUp(c)
  {
    hide Numeral, ConvertAll, TariffUp;
    var lossy := new Lossy();
    var tariffs := [];
    ConvertNone(TariffUp, c.tariffs, "/tariffs/");
    for i := 0 to |c.tariffs|
      invariant fresh(lossy)
      invariant Converted(tariffs, lossy.pointers) == ConvertAll(TariffUp, c.tariffs[..i], "/tariffs/")
    {
      var converted := TariffUp(c.tariffs[i]);
      lossy.Absorb("/tariffs/" + Numeral(i), converted.lossy);
      tariffs := tariffs + [converted.value];
      ConvertAllStep(TariffUp, c.tariffs, "/tariffs/", i);
    }
    assert c.tariffs[..|c.tariffs|] == c.tariffs;
    return Converted(
        New.Cdr(None, tariffs, PriceUp(c.totalCost).value, CostUp(c.totalFixedCost), CostUp(c.totalEnergyCost),
                CostUp(c.totalTimeCost), CostUp(c.totalParkingCost), CostUp(c.totalReservationCost), c.rest),
        lossy.pointers);
  }

  /** Downgrades an optional price field into the enclosing object's report. */
  method DowngradeCost(lossy: Lossy, p: Option<New.Price>, at: string) returns (r: Option<Old.Price>)
    modifies lossy
    ensures r == CostDown(p, at).value
    ensures lossy.pointers == old(lossy.pointers) + CostDown(p, at).lossy
  {
    if p.None? {
      return None;
    }
    var converted := DowngradePrice(p.value);
    lossy.Absorb(at, converted.lossy);
    return Some(converted.value);
  }

  method DowngradeCdr(c: New.Cdr) returns (r: Converted<Old.Cdr>)
    ensures r == CdrDown(c)
  {
    hide Numeral, ConvertAll, TariffDown, PriceDown, CostDown;
    var lossy := new Lossy();
    var tariffs := [];
    ConvertNone(TariffDown, c.tariffs, "/tariffs/");
    for i := 0 to |c.tariffs|
      invariant fresh(lossy)
      invariant Converted(tariffs, lossy.pointers) == ConvertAll(TariffDown, c.tariffs[..i], "/tariffs/")
    {
      var converted := TariffDown(c.tariffs[i]);
      lossy.Absorb("/tariffs/" + Numeral(i), converted.lossy);
      tariffs := tariffs + [converted.value];
      ConvertAllStep(TariffDown, c.tariffs, "/tariffs/", i);
    }
    assert c.tariffs[..|c.tariffs|] == c.tariffs;
    var total := DowngradePrice(c.totalCost);
    lossy.Absorb("/total_cost", total.lossy);
    var fixed := DowngradeCost(lossy, c.totalFixedCost, "/total_fixed_cost");
    var energy := DowngradeCost(lossy, c.totalEnergyCost, "/total_energy_cost");
    var time := DowngradeCost(lossy, c.totalTimeCost, "/total_time_cost");
    var parking := DowngradeCost(lossy, c.totalParkingCost, "/total_parking_cost");
    var reservation := DowngradeCost(lossy, c.totalReservationCost, "/total_reservation_cost");
    if c.bookingId.Some? {
      lossy.Record("/booking_id");
    }
    return Converted(
        Old.Cdr(tariffs, total.value, fixed, energy, time, parking, reservation, c.rest),
        lossy.pointers);
  }

  // ---------------------------------------------------------------------------------------
  // Roles, credentials and client info
  // ---------------------------------------------------------------------------------------

  /** 2.3.0 removed the `HUB` role; it becomes `OTHER`. */
  function RoleUp(r: Old.Role): Converted<New.Role> {
    match r
    case Cpo => Lossless(New.Cpo)
    case Emsp => Lossless(New.Emsp)
    case Hub => Converted(New.Role.Other, [""])
    case Nap => Lossless(New.Nap)
    case Nsp => Lossless(New.Nsp)
    case Other => Lossless(New.Role.Other)
    case Scsp => Lossless(New.Scsp)
  }

  function RoleDown(r: New.Role): Old.Role {
    match r
    case Cpo => Old.Cpo
    case Emsp => Old.Emsp
    case Nap => Old.Nap
    case Nsp => Old.Nsp
    case Other => Old.Role.Other
    case Scsp => Old.Scsp
  }

  function ClientInfoUp(c: Old.ClientInfo): Converted<New.ClientInfo> {
    var role := RoleUp(c.role);
    Converted(New.ClientInfo(role.value, c.rest), Lift("/role", role.lossy))
  }

  function ClientInfoDown(c: New.ClientInfo): Converted<Old.ClientInfo> {
    Lossless(Old.ClientInfo(RoleDown(c.role), c.rest))
  }

  /** The identifier a hub role gives the platform. */
  function HubId(r: Old.CredentialsRole): string {
    r.countryCode + r.partyId
  }

  /** The five-character identifier of the first hub role, if there is one. */
  function HubPartyId(roles: seq<Old.CredentialsRole>): (r: Option<string>)
    ensures r.None? <==> forall role :: role in roles ==> !role.role.Hub?
  {
    if roles == [] then None
    else if roles[0].role.Hub? then Some(HubId(roles[0]))
    else HubPartyId(roles[1..])
  }

  /** The country code and party an identifier names, when it has five printable characters. */
  function PartyOf(id: string): Option<(string, string)> {
    if |id| == 5 && forall i :: 0 <= i < 5 ==> ' ' <= id[i] <= '~' then Some((id[..2], id[2..])) else None
  }

  function RoleEntryUp(r: Old.CredentialsRole): New.CredentialsRole {
    New.CredentialsRole(RoleUp(r.role).value, r.businessDetails, r.partyId, r.countryCode, r.rest)
  }

  function RoleEntryDown(r: New.CredentialsRole): Old.CredentialsRole {
    Old.CredentialsRole(RoleDown(r.role), r.businessDetails, r.partyId, r.countryCode, r.rest)
  }

  /** The entries that are not hub roles, carried over. */
  function RolesUp(roles: seq<Old.CredentialsRole>): seq<New.CredentialsRole> {
    if roles == [] then []
    else
      var last := roles[|roles| - 1];
      RolesUp(roles[..|roles| - 1]) + if last.role.Hub? then [] else [RoleEntryUp(last)]
  }

  function RolesDown(roles: seq<New.CredentialsRole>): (r: seq<Old.CredentialsRole>)
    ensures |r| == |roles| && forall i :: 0 <= i < |r| ==> r[i] == RoleEntryDown(roles[i])
  {
    seq(|roles|, i requires 0 <= i < |roles| => RoleEntryDown(roles[i]))
  }

  function CredentialsUp(c: Old.Credentials): Converted<New.Credentials> {
    Lossless(New.Credentials(HubPartyId(c.roles), RolesUp(c.roles), c.rest))
  }

  /** A hub becomes a `HUB` role with the business details of the first role. */
  function CredentialsDown(c: New.Credentials): Converted<Old.Credentials> {
    var hub := if c.hubPartyId.None? then None else PartyOf(c.hubPartyId.value);
    var roles := RolesDown(c.roles);
    var hubRole :=
      if hub.None? || c.roles == [] then []
      else [Old.CredentialsRole(Old.Hub, c.roles[0].businessDetails, hub.value.1, hub.value.0, map[])];
    Converted(Old.Credentials(roles + hubRole, c.rest), When(hub.Some?, "/hub_party_id"))
  }

  method UpgradeCredentials(c: Old.Credentials) returns (r: Converted<New.Credentials>)
    ensures r == CredentialsUp(c)
  {
    var lossy := new Lossy();
    var hubPartyId := HubPartyId(c.roles);
    var roles := [];
    for i := 0 to |c.roles|
      invariant fresh(lossy)
      invariant lossy.pointers == [] && roles == RolesUp(c.roles[..i])
    {
      var role := c.roles[i];
      assert c.roles[..i + 1][..i] == c.roles[..i];
      if role.role.Hub? {
        continue;
      }
      var converted := RoleUp(role.role);
      assert Lift("/roles/" + Numeral(i) + "/role", converted.lossy) == [];
      lossy.Absorb("/roles/" + Numeral(i) + "/role", converted.lossy);
      roles := roles + [New.CredentialsRole(converted.value, role.businessDetails, role.partyId,
                                            role.countryCode, role.rest)];
    }
    assert c.roles[..|c.roles|] == c.roles;
    return Converted(New.Credentials(hubPartyId, roles, c.rest), lossy.pointers);
  }
}
