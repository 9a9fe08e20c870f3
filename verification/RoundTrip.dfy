/**
 * What the two directions promise about each other: nothing is lost going up, and an empty
 * report going down means the object comes back.
 */
module RoundTrip {
  import opened Wrappers
  import opened Json
  import opened Text
  import opened Codec
  import opened Convert
  import Old = Ocpi221
  import New = Ocpi230
  import Sums

  // ---------------------------------------------------------------------------------------
  // Lists
  // ---------------------------------------------------------------------------------------

  /** A list is up-converted without loss and comes back when each of its elements does. */
  lemma {:induction false} ListRoundTrip<T, U>(
    up: T -> Converted<U>, down: U -> Converted<T>, items: seq<T>, at: string)
    requires forall x :: x in items ==> up(x).lossy == [] && down(up(x).value) == Lossless(x)
    ensures ConvertAll(up, items, at).lossy == []
    ensures ConvertAll(down, ConvertAll(up, items, at).value, at) == Lossless(items)
  {
    hide ConvertAll;
    if items == [] {
      ConvertNone(up, items, at);
      ConvertNone(down, [], at);
      assert items[..0] == items;
    } else {
      var n := |items| - 1;
      assert items == items[..n] + [items[n]];
      ListRoundTrip(up, down, items[..n], at);
      SameLength(up, items[..n], at);
      AppendedComesBack(up, down, items[..n], items[n], at);
    }
  }

  /** One element more, when those before it come back. */
  lemma AppendedComesBack<T, U>(up: T -> Converted<U>, down: U -> Converted<T>, items: seq<T>, x: T, at: string)
    requires up(x).lossy == [] && down(up(x).value) == Lossless(x)
    requires ConvertAll(up, items, at).lossy == [] && |ConvertAll(up, items, at).value| == |items|
    requires ConvertAll(down, ConvertAll(up, items, at).value, at) == Lossless(items)
    ensures ConvertAll(up, items + [x], at) == Lossless(ConvertAll(up, items, at).value + [up(x).value])
    ensures ConvertAll(down, ConvertAll(up, items, at).value + [up(x).value], at) == Lossless(items + [x])
  {
    var (ups, y) := (ConvertAll(up, items, at).value, up(x).value);
    ConvertAppended(up, items, x, at);
    ConvertAppended(down, ups, y, at);
    hide ConvertAll, Numeral;
    assert Lift(at + Numeral(|items|), []) == [];
  }

  lemma ConvertAppended<T, U>(convert: T -> Converted<U>, items: seq<T>, x: T, at: string)
    ensures var (init, last) := (ConvertAll(convert, items, at), convert(x));
            ConvertAll(convert, items + [x], at)
            == Converted(init.value + [last.value], init.lossy + Lift(at + Numeral(|items|), last.lossy))
  {
    hide Numeral;
    assert (items + [x])[..|items|] == items;
  }

  lemma {:induction false} SameLength<T, U>(convert: T -> Converted<U>, items: seq<T>, at: string)
    ensures |ConvertAll(convert, items, at).value| == |items|
    ensures forall i :: 0 <= i < |items| ==> ConvertAll(convert, items, at).value[i] == convert(items[i]).value
  {
    if items == [] {
    } else {
      SameLength(convert, items[..|items| - 1], at);
    }
  }

  /** A list is reported clean exactly when each of its elements is. */
  lemma {:induction false} ListClean<T, U>(convert: T -> Converted<U>, items: seq<T>, at: string)
    ensures ConvertAll(convert, items, at).lossy == [] <==> forall x :: x in items ==> convert(x).lossy == []
  {
    if items == [] {
    } else {
      hide ConvertAll;
      var n := |items| - 1;
      assert items == items[..n] + [items[n]];
      ListClean(convert, items[..n], at);
      ConvertAppended(convert, items[..n], items[n], at);
      hide Numeral;
    }
  }

  /** A list comes back exactly when each of its elements does. */
  lemma ListBack<T, U>(down: T -> Converted<U>, up: U -> Converted<T>, items: seq<T>, at: string)
    ensures ConvertAll(up, ConvertAll(down, items, at).value, at).value == items
            <==> forall x :: x in items ==> up(down(x).value).value == x
  {
    var downs := ConvertAll(down, items, at).value;
    SameLength(down, items, at);
    SameLength(up, downs, at);
    var back := ConvertAll(up, downs, at).value;
    if forall x :: x in items ==> up(down(x).value).value == x {
      assert forall i :: 0 <= i < |items| ==> back[i] == items[i];
    }
    if back == items {
      forall x | x in items
        ensures up(down(x).value).value == x
      {
        var i :| 0 <= i < |items| && items[i] == x;
        assert back[i] == up(down(items[i]).value).value;
      }
    }
  }

  // ---------------------------------------------------------------------------------------
  // Price
  // ---------------------------------------------------------------------------------------

  lemma PriceRoundTrip(p: Old.Price)
    ensures PriceDown(PriceUp(p).value) == Lossless(p)
  {
    var taxes := PriceUp(p).value.taxes;
    if p.inclVat.Some? {
      Sums.SumOne(taxes[0], New.AmountOf);
      assert FoldedLines(taxes, 0) == [];
    }
  }

  /** What a 2.2.1 price can say about tax: nothing, or one VAT amount. */
  predicate PlainVat(taxes: seq<New.TaxAmount>) {
    taxes == []
    || (|taxes| == 1 && taxes[0].name == IMPLIED_VAT_NAME && taxes[0].percentage.None? && taxes[0].accountNumber.None?)
  }

  /** Exactly the lines whose detail is folded away are reported, each under its index. */
  lemma {:induction false} FoldedLinesAre(taxes: seq<New.TaxAmount>, n: nat, p: string)
    requires n <= |taxes|
    ensures p in FoldedLines(taxes, n) <==> exists i :: 0 <= i < n && Folded(taxes, i) && p == "/taxes/" + Numeral(i)
  {
    hide Folded, Numeral;
    if n == 0 {
    } else {
      FoldedLinesAre(taxes, n - 1, p);
      var (before, last) := (FoldedLines(taxes, n - 1), When(Folded(taxes, n - 1), "/taxes/" + Numeral(n - 1)));
      assert p in FoldedLines(taxes, n) <==> p in before || p in last;
      assert p in last <==> Folded(taxes, n - 1) && p == "/taxes/" + Numeral(n - 1);
      hide FoldedLines, When;
    }
  }

  /** A price is reported clean exactly when its tax lines say no more than one VAT amount. */
  lemma PriceClean(p: New.Price)
    ensures PriceDown(p).lossy == [] <==> PlainVat(p.taxes)
  {
    if PlainVat(p.taxes) {
      if p.taxes != [] {
        assert FoldedLines(p.taxes, 0) == [];
      }
    } else {
      FoldedLinesAre(p.taxes, |p.taxes|, "/taxes/" + Numeral(0));
      assert Folded(p.taxes, 0);
    }
  }

  predicate NoLineExtensions(p: New.Price) {
    forall t :: t in p.taxes ==> t.rest == map[]
  }

  /** A price comes back exactly when its report is clean and no tax line has undocumented fields. */
  lemma PriceComesBack(p: New.Price)
    ensures PriceUp(PriceDown(p).value).value == p <==> PriceDown(p).lossy == [] && NoLineExtensions(p)
  {
    PriceClean(p);
    if |p.taxes| == 1 {
      Sums.SumOne(p.taxes[0], New.AmountOf);
      assert p.taxes == [p.taxes[0]];
      assert p.taxes[0] in p.taxes;
    }
  }

  /** Undocumented fields of a tax line go missing without a report. */
  lemma LineExtensionsVanish()
    ensures exists p: New.Price :: PriceDown(p).lossy == [] && PriceUp(PriceDown(p).value).value != p
  {
    var p := New.Price(5.0, [New.TaxAmount(IMPLIED_VAT_NAME, None, None, 0.5, map["note" := Null])], map[]);
    PriceComesBack(p);
    PriceClean(p);
    assert "note" in p.taxes[0].rest;
    assert p.taxes[0] in p.taxes;
    assert !NoLineExtensions(p);
  }

  lemma CostRoundTrip(p: Option<Old.Price>, at: string)
    ensures CostDown(CostUp(p), at) == Lossless(p)
  {
    if p.Some? {
      PriceRoundTrip(p.value);
    }
  }

  predicate NoCostExtensions(p: Option<New.Price>) {
    p.Some? ==> NoLineExtensions(p.value)
  }

  lemma CostComesBack(p: Option<New.Price>, at: string)
    ensures CostUp(CostDown(p, at).value) == p <==> CostDown(p, at).lossy == [] && NoCostExtensions(p)
  {
    if p.Some? {
      PriceComesBack(p.value);
    }
  }

  // ---------------------------------------------------------------------------------------
  // Locations
  // ---------------------------------------------------------------------------------------

  lemma EvseRoundTrip(e: Old.Evse)
    ensures EvseUp(e).lossy == [] && EvseDown(EvseUp(e).value) == Lossless(e)
  {
    ListRoundTrip(ConnectorUp, ConnectorDown, e.connectors, "/connectors/");
  }

  lemma LocationRoundTrip(l: Old.Location)
    ensures LocationUp(l).lossy == [] && LocationDown(LocationUp(l).value) == Lossless(l)
  {
    forall e | e in l.evses
      ensures EvseUp(e).lossy == [] && EvseDown(EvseUp(e).value) == Lossless(e)
    {
      EvseRoundTrip(e);
    }
    hide EvseUp, EvseDown;
    ListRoundTrip(EvseUp, EvseDown, l.evses, "/evses/");
  }

  lemma EvseComesBack(e: New.Evse)
    ensures EvseUp(EvseDown(e).value).value == e <==> EvseDown(e).lossy == []
  {
    ListClean(ConnectorDown, e.connectors, "/connectors/");
    ListBack(ConnectorDown, ConnectorUp, e.connectors, "/connectors/");
  }

  lemma LocationComesBack(l: New.Location)
    ensures LocationUp(LocationDown(l).value).value == l <==> LocationDown(l).lossy == []
  {
    forall e | e in l.evses
      ensures EvseUp(EvseDown(e).value).value == e <==> EvseDown(e).lossy == []
    {
      EvseComesBack(e);
    }
    hide EvseUp, EvseDown;
    ListClean(EvseDown, l.evses, "/evses/");
    ListBack(EvseDown, EvseUp, l.evses, "/evses/");
  }

  // ---------------------------------------------------------------------------------------
  // Tariffs, sessions and CDRs
  // ---------------------------------------------------------------------------------------

  lemma TariffRoundTrip(t: Old.Tariff)
    ensures TariffUp(t).lossy == [] && TariffDown(TariffUp(t).value) == Lossless(t)
  {
  }

  lemma TariffComesBack(t: New.Tariff)
    ensures TariffUp(TariffDown(t).value).value == t <==> TariffDown(t).lossy == []
  {
  }

  lemma SessionRoundTrip(s: Old.Session)
    ensures SessionUp(s).lossy == [] && SessionDown(SessionUp(s).value) == Lossless(s)
  {
    CostRoundTrip(s.totalCost, "/total_cost");
  }

  lemma SessionComesBack(s: New.Session)
    ensures SessionUp(SessionDown(s).value).value == s
            <==> SessionDown(s).lossy == [] && NoCostExtensions(s.totalCost)
  {
    CostComesBack(s.totalCost, "/total_cost");
  }

  lemma CdrRoundTrip(c: Old.Cdr)
    ensures CdrUp(c).lossy == [] && CdrDown(CdrUp(c).value) == Lossless(c)
  {
    forall t | t in c.tariffs
      ensures TariffUp(t).lossy == [] && TariffDown(TariffUp(t).value) == Lossless(t)
    {
      TariffRoundTrip(t);
    }
    hide PriceDown, CostUp, CostDown, TariffUp, TariffDown, ConvertAll;
    ListRoundTrip(TariffUp, TariffDown, c.tariffs, "/tariffs/");
    PriceRoundTrip(c.totalCost);
    CostRoundTrip(c.totalFixedCost, "/total_fixed_cost");
    CostRoundTrip(c.totalEnergyCost, "/total_energy_cost");
    CostRoundTrip(c.totalTimeCost, "/total_time_cost");
    CostRoundTrip(c.totalParkingCost, "/total_parking_cost");
    CostRoundTrip(c.totalReservationCost, "/total_reservation_cost");
  }

  predicate NoTaxLineExtensions(c: New.Cdr) {
    NoLineExtensions(c.totalCost) && NoCostExtensions(c.totalFixedCost) && NoCostExtensions(c.totalEnergyCost)
    && NoCostExtensions(c.totalTimeCost) && NoCostExtensions(c.totalParkingCost)
    && NoCostExtensions(c.totalReservationCost)
  }

  lemma CdrComesBack(c: New.Cdr)
    ensures CdrUp(CdrDown(c).value).value == c <==> CdrDown(c).lossy == [] && NoTaxLineExtensions(c)
  {
    forall t | t in c.tariffs
      ensures TariffUp(TariffDown(t).value).value == t <==> TariffDown(t).lossy == []
    {
      TariffComesBack(t);
    }
    hide TariffUp, TariffDown, PriceUp, PriceDown, CostUp, CostDown, NoLineExtensions, NoCostExtensions;
    ListClean(TariffDown, c.tariffs, "/tariffs/");
    ListBack(TariffDown, TariffUp, c.tariffs, "/tariffs/");
    hide ConvertAll;
    PriceComesBack(c.totalCost);
    CostComesBack(c.totalFixedCost, "/total_fixed_cost");
    CostComesBack(c.totalEnergyCost, "/total_energy_cost");
    CostComesBack(c.totalTimeCost, "/total_time_cost");
    CostComesBack(c.totalParkingCost, "/total_parking_cost");
    CostComesBack(c.totalReservationCost, "/total_reservation_cost");
  }

  // ---------------------------------------------------------------------------------------
  // Credentials
  // ---------------------------------------------------------------------------------------

  /** The party of a hub role survives the way up and down again exactly when its identifiers are well formed. */
  lemma HubPartySurvives(countryCode: string, partyId: string)
    ensures PartyOf(countryCode + partyId) == Some((countryCode, partyId))
            <==> |countryCode| == 2 && |partyId| == 3 && forall c :: c in countryCode + partyId ==> ' ' <= c <= '~'
  {
    var id := countryCode + partyId;
    if |countryCode| == 2 {
      assert id[..2] == countryCode && id[2..] == partyId;
    }
    if forall c :: c in id ==> ' ' <= c <= '~' {
      assert forall i :: 0 <= i < |id| ==> id[i] in id;
    }
  }

  /** A `hub_party_id` that is not five printable characters is dropped, and nothing says so. */
  lemma MalformedHubVanishes(c: New.Credentials)
    requires c.hubPartyId.Some?
    ensures CredentialsDown(c).lossy == [] <==> PartyOf(c.hubPartyId.value).None?
    ensures (exists r :: r in CredentialsDown(c).value.roles && r.role.Hub?)
            <==> c.roles != [] && PartyOf(c.hubPartyId.value).Some?
  {
    var roles := CredentialsDown(c).value.roles;
    assert forall i :: 0 <= i < |c.roles| ==> !roles[i].role.Hub?;
    if c.roles != [] && PartyOf(c.hubPartyId.value).Some? {
      assert roles[|c.roles|].role.Hub? && roles[|c.roles|] in roles;
    }
  }

  /**
   * Only the first hub role gives the upgraded platform its identifier, and nothing is reported:
   * every hub role's identifier survives exactly when all of them name the same one.
   */
  lemma HubsSurvive(c: Old.Credentials)
    ensures CredentialsUp(c).lossy == []
    ensures (forall r :: r in c.roles && r.role.Hub? ==> CredentialsUp(c).value.hubPartyId == Some(HubId(r)))
            <==> (forall a, b :: a in c.roles && b in c.roles && a.role.Hub? && b.role.Hub? ==> HubId(a) == HubId(b))
  {
    var id := HubPartyId(c.roles);
    HubPartyIdIsTheFirst(c.roles);
    if forall a, b :: a in c.roles && b in c.roles && a.role.Hub? && b.role.Hub? ==> HubId(a) == HubId(b) {
      forall r | r in c.roles && r.role.Hub?
        ensures id == Some(HubId(r))
      {
      }
    }
  }

  /** The first of the hub roles. */
  predicate FirstHub(roles: seq<Old.CredentialsRole>, k: nat) {
    k < |roles| && roles[k].role.Hub? && forall i :: 0 <= i < k ==> !roles[i].role.Hub?
  }

  lemma NextFirstHub(roles: seq<Old.CredentialsRole>, k: nat)
    requires roles != [] && !roles[0].role.Hub? && FirstHub(roles[1..], k)
    ensures FirstHub(roles, k + 1)
  {
    assert forall i :: 0 < i < |roles| ==> roles[i] == roles[1..][i - 1];
  }

  /** The identifier of an upgraded platform is that of the first of its hub roles. */
  lemma {:induction false} HubPartyIdIsTheFirst(roles: seq<Old.CredentialsRole>)
    ensures HubPartyId(roles).Some? ==>
              exists k: nat :: FirstHub(roles, k) && HubPartyId(roles) == Some(HubId(roles[k]))
  {
    hide HubId;
    if roles == [] {
    } else if roles[0].role.Hub? {
      assert FirstHub(roles, 0);
    } else {
      var rest := roles[1..];
      HubPartyIdIsTheFirst(rest);
      if HubPartyId(rest).Some? {
        var k: nat :| FirstHub(rest, k) && HubPartyId(rest) == Some(HubId(rest[k]));
        NextFirstHub(roles, k);
        hide FirstHub;
      }
    }
  }

  /** Going up keeps the entries that are not hub roles, exactly those, in order: entry `at[i]` is the i-th. */
  lemma {:induction false} OtherRolesStay(roles: seq<Old.CredentialsRole>) returns (at: seq<nat>)
    ensures PicksOthers(roles, at) && CarriesOver(roles, at, RolesUp(roles))
  {
    if roles == [] {
      at := [];
    } else {
      var n := |roles| - 1;
      var before := OtherRolesStay(roles[..n]);
      at := before + if roles[n].role.Hub? then [] else [n];
      PickOneMore(roles, before);
      if !roles[n].role.Hub? {
        EntryUp(roles[n]);
      }
      hide RoleEntryUp, PicksOthers, SameEntry;
      assert roles[..n] + [roles[n]] == roles;
    }
  }

  /** Exactly the places of the entries that are not hub roles, in order. */
  predicate PicksOthers(roles: seq<Old.CredentialsRole>, at: seq<nat>) {
    && (forall i :: 0 <= i < |at| ==> at[i] < |roles| && !roles[at[i]].role.Hub?)
    && (forall i, j :: 0 <= i < j < |at| ==> at[i] < at[j])
    && (forall k :: 0 <= k < |roles| && !roles[k].role.Hub? ==> k in at)
  }

  /** An entry carried over: the role by its name, and everything else as it is. */
  predicate SameEntry(r: Old.CredentialsRole, up: New.CredentialsRole) {
    && NewRoleText(up.role) == OldRoleText(r.role)
    && up.businessDetails == r.businessDetails && up.partyId == r.partyId && up.countryCode == r.countryCode
    && up.rest == r.rest
  }

  lemma EntryUp(r: Old.CredentialsRole)
    requires !r.role.Hub?
    ensures SameEntry(r, RoleEntryUp(r))
  {
  }

  /** The i-th entry is entry `at[i]` carried over. */
  predicate CarriesOver(roles: seq<Old.CredentialsRole>, at: seq<nat>, ups: seq<New.CredentialsRole>) {
    |ups| == |at| && forall i :: 0 <= i < |at| ==> at[i] < |roles| && SameEntry(roles[at[i]], ups[i])
  }

  lemma PickOneMore(roles: seq<Old.CredentialsRole>, before: seq<nat>)
    requires roles != [] && PicksOthers(roles[..|roles| - 1], before)
    ensures var n := |roles| - 1;
            PicksOthers(roles, before + if roles[n].role.Hub? then [] else [n])
  {
    var n := |roles| - 1;
    var at: seq<nat> := before + if roles[n].role.Hub? then [] else [n];
    forall k | 0 <= k < |roles| && !roles[k].role.Hub?
      ensures k in at
    {
      if k < n {
        assert roles[..n][k] == roles[k];
        assert k in before;
      } else {
        assert at[|before|] == n;
      }
    }
  }

  /** Of two hub roles with different identifiers the second vanishes, and nothing says so. */
  lemma SecondHubVanishes(a: Old.CredentialsRole, b: Old.CredentialsRole, rest: Fields)
    requires a.role.Hub? && b.role.Hub? && HubId(a) != HubId(b)
    ensures CredentialsUp(Old.Credentials([a, b], rest)) == Lossless(New.Credentials(Some(HubId(a)), [], rest))
  {
    var roles := [a, b];
    assert roles[..1] == [a] && [a][..0] == [];
    assert RolesUp([a]) == [] && RolesUp(roles) == RolesUp([a]) + [];
  }

  // ---------------------------------------------------------------------------------------
  // Amounts survive, whatever is reported lost
  // ---------------------------------------------------------------------------------------

  /** An amount before tax with every tax on top of it. */
  function WithTaxes(p: New.Price): real {
    p.beforeTaxes + Sums.SumBy(p.taxes, New.AmountOf)
  }

  /** The same amount before tax and after all of it. */
  predicate SameAmounts(p: New.Price, q: New.Price) {
    p.beforeTaxes == q.beforeTaxes && WithTaxes(p) == WithTaxes(q)
  }

  /** A price goes down with its amount before tax and the sum of every tax on top, and comes back with both. */
  lemma PriceAmountsSurvive(p: New.Price)
    ensures var down := PriceDown(p).value;
            && down.exclVat == p.beforeTaxes
            && down.inclVat == (if p.taxes == [] then None else Some(WithTaxes(p)))
            && SameAmounts(PriceUp(down).value, p)
  {
    var taxes := PriceUp(PriceDown(p).value).value.taxes;
    if p.taxes != [] {
      Sums.SumOne(taxes[0], New.AmountOf);
    }
  }

  /** A cost field is there exactly when it was, with the same amounts. */
  predicate SameCost(p: Option<New.Price>, q: Option<New.Price>) {
    (p.Some? <==> q.Some?) && (p.Some? ==> SameAmounts(p.value, q.value))
  }

  lemma CostAmountsSurvive(p: Option<New.Price>, at: string)
    ensures SameCost(CostUp(CostDown(p, at).value), p)
  {
    if p.Some? {
      PriceAmountsSurvive(p.value);
    }
  }

  /** So does the total of a session. */
  lemma SessionAmountsSurvive(s: New.Session)
    ensures SameCost(SessionUp(SessionDown(s).value).value.totalCost, s.totalCost)
  {
    CostAmountsSurvive(s.totalCost, "/total_cost");
  }

  /** And all six costs of a CDR, each under its own field. */
  lemma CdrAmountsSurvive(c: New.Cdr)
    ensures var back := CdrUp(CdrDown(c).value).value;
            && SameAmounts(back.totalCost, c.totalCost)
            && SameCost(back.totalFixedCost, c.totalFixedCost)
            && SameCost(back.totalEnergyCost, c.totalEnergyCost)
            && SameCost(back.totalTimeCost, c.totalTimeCost)
            && SameCost(back.totalParkingCost, c.totalParkingCost)
            && SameCost(back.totalReservationCost, c.totalReservationCost)
  {
    PriceAmountsSurvive(c.totalCost);
    hide PriceUp, PriceDown, CostUp, CostDown, ConvertAll, SameAmounts, SameCost;
    CostAmountsSurvive(c.totalFixedCost, "/total_fixed_cost");
    CostAmountsSurvive(c.totalEnergyCost, "/total_energy_cost");
    CostAmountsSurvive(c.totalTimeCost, "/total_time_cost");
    CostAmountsSurvive(c.totalParkingCost, "/total_parking_cost");
    CostAmountsSurvive(c.totalReservationCost, "/total_reservation_cost");
  }

  /** The limits of a tariff come back whatever else it loses. */
  lemma LimitsSurvive(t: New.Tariff)
    ensures var back := TariffUp(TariffDown(t).value).value;
            back.minPrice == t.minPrice && back.maxPrice == t.maxPrice && back.rest == t.rest
  {
  }

  // ---------------------------------------------------------------------------------------
  // Roles
  // ---------------------------------------------------------------------------------------

  /**
   * Every role but the hub's crosses unreported, keeps its name and comes back; the hub's becomes
   * `OTHER`, reported.
   */
  lemma RoleRoundTrip(r: Old.Role)
    ensures !r.Hub? ==>
              RoleDown(RoleUp(r).value) == r && RoleUp(r).lossy == [] && NewRoleText(RoleUp(r).value) == OldRoleText(r)
    ensures r.Hub? ==> RoleUp(r).lossy == [""] && NewRoleText(RoleUp(r).value) == "OTHER"
  {
  }

  /** Hub client info comes back unless it is that of a hub, which is reported. */
  lemma ClientInfoRoundTrip(c: Old.ClientInfo)
    ensures var up := ClientInfoUp(c);
            if c.role.Hub? then up.lossy == ["/role"] && ClientInfoDown(up.value).value == c.(role := Old.Role.Other)
            else up.lossy == [] && ClientInfoDown(up.value) == Lossless(c)
  {
    if c.role.Hub? {
      assert "/role" + "" == "/role";
      assert Lift("/role", [""]) == ["/role"];
    }
  }

  lemma {:induction false} EntriesComeBack(roles: seq<Old.CredentialsRole>)
    requires forall r :: r in roles ==> !r.role.Hub?
    ensures RolesDown(RolesUp(roles)) == roles && HubPartyId(roles).None?
  {
    if roles == [] {
    } else {
      var n := |roles| - 1;
      EntriesComeBack(roles[..n]);
      assert roles[n] in roles;
      RoleRoundTrip(roles[n].role);
      var ups := RolesUp(roles[..n]);
      assert RolesUp(roles) == ups + [RoleEntryUp(roles[n])];
      assert |ups| == n;
      assert RolesDown(RolesUp(roles)) == RolesDown(ups) + [roles[n]];
    }
  }

  /** 2.2.1 credentials without a hub role cross and come back as they were, nothing reported. */
  lemma CredentialsRoundTrip(c: Old.Credentials)
    requires forall r :: r in c.roles ==> !r.role.Hub?
    ensures CredentialsUp(c).lossy == [] && CredentialsDown(CredentialsUp(c).value) == Lossless(c)
  {
    EntriesComeBack(c.roles);
    assert c.roles + [] == c.roles;
  }
}
