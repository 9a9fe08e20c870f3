/**
 * The loss report of a page of Locations on the way down: exactly the present fields that 2.2.1
 * lacks, at every depth, each once, by a pointer that resolves in the source page.
 */
module LossReports {
  import opened Wrappers
  import opened Json
  import opened Text
  import opened Codec
  import opened Convert
  import opened Wire
  import New = Ocpi230

  /** Whether a pointer names something in `doc` that says something: not null, not an empty list. */
  predicate Carries(doc: Json, pointer: string) {
    var at := Resolve(doc, pointer);
    at.Some? && !at.value.Null? && at.value != Array([])
  }

  predicate Rooted(pointer: string) {
    pointer != "" && pointer[0] == '/'
  }

  // ---------------------------------------------------------------------------------------
  // The places that exist in 2.3.0 only
  // ---------------------------------------------------------------------------------------

  ghost predicate ConnectorPlace(p: string) {
    p == "/capabilities"
  }

  ghost predicate EvsePlace(p: string) {
    p == "/parking" || p == "/accepted_service_providers" || Within("/connectors/", ConnectorPlace, p)
  }

  ghost predicate LocationPlace(p: string) {
    p == "/parking_places" || p == "/help_phone" || Within("/evses/", EvsePlace, p)
  }

  ghost predicate PagePlace(p: string) {
    Within("/", LocationPlace, p)
  }

  /** A place inside some item of the list at `at`. */
  ghost predicate Within(at: string, place: string -> bool, p: string) {
    exists i: nat, q: string :: IsAt(at, i, q, p) && place(q)
  }

  predicate IsAt(at: string, i: nat, q: string, p: string) {
    p == at + Numeral(i) + q
  }

  lemma WithinIsRooted(at: string, place: string -> bool, p: string)
    requires Rooted(at) && Within(at, place, p)
    ensures Rooted(p)
  {
    var i: nat, q: string :| IsAt(at, i, q, p) && place(q);
    hide Numeral;
    assert p[0] == at[0];
  }

  lemma PlacesAreRooted(p: string)
    ensures ConnectorPlace(p) || EvsePlace(p) || LocationPlace(p) ==> Rooted(p)
  {
    if Within("/connectors/", ConnectorPlace, p) {
      WithinIsRooted("/connectors/", ConnectorPlace, p);
    }
    if Within("/evses/", EvsePlace, p) {
      WithinIsRooted("/evses/", EvsePlace, p);
    }
  }

  // ---------------------------------------------------------------------------------------
  // Lists
  // ---------------------------------------------------------------------------------------

  /** A converted list reports each element's losses under the element's index, and no others. */
  lemma {:induction false} ListReport<T, U>(convert: T -> Converted<U>, items: seq<T>, at: string, p: string)
    ensures p in ConvertAll(convert, items, at).lossy
            <==> exists i: nat, q: string :: IsAt(at, i, q, p) && i < |items| && q in convert(items[i]).lossy
  {
    if items == [] {
    } else {
      var n := |items| - 1;
      var last := Lift(at + Numeral(n), convert(items[n]).lossy);
      ListReport(convert, items[..n], at, p);
      hide Numeral;
      if p in last {
        var k :| 0 <= k < |last| && last[k] == p;
        assert IsAt(at, n, convert(items[n]).lossy[k], p);
      }
      if i: nat, q: string :| IsAt(at, i, q, p) && i < |items| && q in convert(items[i]).lossy {
        if i == n {
          var k :| 0 <= k < |last| && convert(items[n]).lossy[k] == q;
          assert last[k] == p;
        } else {
          assert items[..n][i] == items[i];
        }
      }
    }
  }

  /** A report holds exactly the places that carry something in a document. */
  ghost predicate ReportsPlacesOf(report: Report, doc: Json, place: string -> bool) {
    forall q :: q in report <==> place(q) && Carries(doc, q)
  }

  /** Every element's report holds exactly the places that carry something in its document. */
  ghost predicate ReportsPlaces<T, U>(
    convert: T -> Converted<U>, items: seq<T>, docs: seq<Json>, place: string -> bool)
  {
    && |items| == |docs|
    && forall i :: 0 <= i < |items| ==> ReportsPlacesOf(convert(items[i]).lossy, docs[i], place)
  }

  /** Places in the documents of a list are found at `at` in the document around it. */
  ghost predicate ListedAt(doc: Json, docs: seq<Json>, place: string -> bool, at: string) {
    forall i: nat, q: string :: place(q) ==>
      Resolve(doc, at + Numeral(i) + q) == if i < |docs| then Resolve(docs[i], q) else None
  }

  /**
   * If every element's report holds exactly the places that carry something in its document, so
   * does the report of the list for the document around it.
   */
  lemma ListPlaces<T, U>(
    convert: T -> Converted<U>, items: seq<T>, docs: seq<Json>, place: string -> bool, at: string, doc: Json, p: string)
    requires ReportsPlaces(convert, items, docs, place) && ListedAt(doc, docs, place, at)
    ensures p in ConvertAll(convert, items, at).lossy <==> Within(at, place, p) && Carries(doc, p)
  {
    hide Numeral, ConvertAll, Resolve;
    ListReport(convert, items, at, p);
    if i: nat, q: string :| IsAt(at, i, q, p) && i < |items| && q in convert(items[i]).lossy {
      assert place(q) && Carries(docs[i], q);
      assert Resolve(doc, at + Numeral(i) + q) == Resolve(docs[i], q);
    }
    if Within(at, place, p) && Carries(doc, p) {
      var i: nat, q: string :| IsAt(at, i, q, p) && place(q);
      assert Resolve(doc, at + Numeral(i) + q) == if i < |docs| then Resolve(docs[i], q) else None;
      assert Carries(docs[i], q);
    }
  }

  lemma ResolveBeyond(items: seq<Json>, i: nat, rest: string)
    requires |items| <= i && Rooted(rest)
    ensures Resolve(Array(items), "/" + Numeral(i) + rest) == None
  {
    NumeralValue(i);
    NumeralIsPlain(i);
    ResolveStep(Array(items), Numeral(i), rest);
  }

  lemma ResolveInArray(items: seq<Json>, i: nat, rest: string)
    requires Rooted(rest)
    ensures Resolve(Array(items), "/" + Numeral(i) + rest) == if i < |items| then Resolve(items[i], rest) else None
  {
    if i < |items| {
      ResolveItem(items, i, rest);
    } else {
      ResolveBeyond(items, i, rest);
    }
  }

  /** The pointer to a top-level field. */
  ghost predicate Names(pointer: string, name: string) {
    PlainToken(name) && pointer == "/" + name
  }

  lemma MemberOf(fields: Fields, name: string)
    requires PlainToken(name)
    ensures Child(Object(fields), name) == Get(fields, name)
  {
    UnescapePlain(name);
  }

  /** Resolving steps through a list member into the item a numeral names. */
  lemma ResolveInList(fields: Fields, name: string, at: string, i: nat, rest: string)
    requires Names("/" + name, name) && Rooted(rest) && at == "/" + name + "/"
    requires name in fields ==> fields[name].Array?
    ensures Resolve(Object(fields), at + Numeral(i) + rest)
            == if name in fields && i < |fields[name].items| then Resolve(fields[name].items[i], rest) else None
  {
    hide Numeral, Resolve, Unescape;
    var tail := "/" + Numeral(i) + rest;
    assert at + Numeral(i) + rest == "/" + name + tail;
    ResolveStep(Object(fields), name, tail);
    MemberOf(fields, name);
    if name in fields {
      ResolveInArray(fields[name].items, i, rest);
    }
  }

  lemma CarriesMember(fields: Fields, name: string, pointer: string)
    requires Names(pointer, name)
    ensures Carries(Object(fields), pointer) <==> name in fields && !fields[name].Null? && fields[name] != Array([])
  {
    MemberOf(fields, name);
    ResolveStep(Object(fields), name, "");
    assert "/" + name + "" == pointer;
  }

  lemma ListMemberReport(fields: Fields, name: string, pointer: string, p: string)
    requires Names(pointer, name) && ItemsOrNone(Get(fields, name)).Some?
    ensures p in When(ItemsOrNone(Get(fields, name)).value != [], pointer)
            <==> p == pointer && Carries(Object(fields), p)
  {
    CarriesMember(fields, name, pointer);
  }

  lemma TextMemberReport(fields: Fields, name: string, pointer: string, p: string)
    requires Names(pointer, name) && Optional(Get(fields, name), TextOf).Some?
    ensures p in When(Optional(Get(fields, name), TextOf).value.Some?, pointer)
            <==> p == pointer && Carries(Object(fields), p)
  {
    CarriesMember(fields, name, pointer);
  }

  lemma CapabilitiesIsAName()
    ensures Names("/capabilities", "capabilities")
  {
  }

  lemma ParkingIsAName()
    ensures Names("/parking", "parking")
  {
  }

  lemma AcceptedServiceProvidersIsAName()
    ensures Names("/accepted_service_providers", "accepted_service_providers")
  {
  }

  lemma ParkingPlacesIsAName()
    ensures Names("/parking_places", "parking_places")
  {
  }

  lemma HelpPhoneIsAName()
    ensures Names("/help_phone", "help_phone")
  {
  }

  lemma ConnectorsIsAName()
    ensures Names("/connectors", "connectors")
  {
  }

  lemma EvsesIsAName()
    ensures Names("/evses", "evses")
  {
  }

  // ---------------------------------------------------------------------------------------
  // Every depth
  // ---------------------------------------------------------------------------------------

  lemma ConnectorReport(doc: Json, p: string)
    requires DecodeNewConnector(doc).Some?
    ensures p in ConnectorDown(DecodeNewConnector(doc).value).lossy <==> ConnectorPlace(p) && Carries(doc, p)
  {
    CapabilitiesIsAName();
    hide Names, Shared, Carries, ItemsOrNone, Get;
    ListMemberReport(doc.fields, "capabilities", "/capabilities", p);
  }

  lemma EvseOwnReport(doc: Json, p: string)
    requires DecodeNewEvse(doc).Some?
    ensures var evse := DecodeNewEvse(doc).value;
            p in When(evse.parking != [], "/parking")
                 + When(evse.acceptedServiceProviders != [], "/accepted_service_providers")
            <==> (p == "/parking" || p == "/accepted_service_providers") && Carries(doc, p)
  {
    ParkingIsAName();
    AcceptedServiceProvidersIsAName();
    hide Names, Shared, Carries, ItemsOrNone, Get, Decoded, When;
    ListMemberReport(doc.fields, "parking", "/parking", p);
    ListMemberReport(doc.fields, "accepted_service_providers", "/accepted_service_providers", p);
  }

  lemma LocationOwnReport(doc: Json, p: string)
    requires DecodeNewLocation(doc).Some?
    ensures var location := DecodeNewLocation(doc).value;
            p in When(location.parkingPlaces != [], "/parking_places") + When(location.helpPhone.Some?, "/help_phone")
            <==> (p == "/parking_places" || p == "/help_phone") && Carries(doc, p)
  {
    ParkingPlacesIsAName();
    HelpPhoneIsAName();
    hide Names, Shared, Carries, ItemsOrNone, Optional, Get, Decoded, When;
    ListMemberReport(doc.fields, "parking_places", "/parking_places", p);
    TextMemberReport(doc.fields, "help_phone", "/help_phone", p);
  }

  lemma ListPointers()
    ensures "/connectors/" == "/" + "connectors" + "/"
    ensures "/evses/" == "/" + "evses" + "/"
    ensures Rooted("/capabilities")
  {
  }

  /** The documents of an EVSE's connectors. */
  lemma ConnectorDocs(doc: Json) returns (docs: seq<Json>)
    requires DecodeNewEvse(doc).Some?
    ensures doc.Object? && "connectors" in doc.fields && doc.fields["connectors"] == Array(docs)
    ensures var connectors := DecodeNewEvse(doc).value.connectors;
            |connectors| == |docs|
            && forall i :: 0 <= i < |docs| ==> DecodeNewConnector(docs[i]) == Some(connectors[i])
  {
    hide Shared, ItemsOrNone, DecodeNewConnector, DecodeAll;
    docs := doc.fields["connectors"].items;
  }

  /** The documents of a location's EVSEs. */
  lemma EvseDocs(doc: Json) returns (docs: seq<Json>)
    requires DecodeNewLocation(doc).Some?
    ensures doc.Object?
    ensures if "evses" in doc.fields then doc.fields["evses"] == Array(docs) else docs == []
    ensures var evses := DecodeNewLocation(doc).value.evses;
            |evses| == |docs| && forall i :: 0 <= i < |docs| ==> DecodeNewEvse(docs[i]) == Some(evses[i])
  {
    hide Shared, DecodeNewEvse, DecodeAll, Optional;
    docs := if "evses" in doc.fields then doc.fields["evses"].items else [];
  }

  lemma ConnectorsListed(doc: Json, docs: seq<Json>)
    requires doc.Object? && "connectors" in doc.fields && doc.fields["connectors"] == Array(docs)
    ensures ListedAt(doc, docs, ConnectorPlace, "/connectors/")
  {
    ListPointers();
    ConnectorsIsAName();
    hide Numeral, Resolve, Names;
    forall i: nat, q: string | ConnectorPlace(q)
      ensures Resolve(doc, "/connectors/" + Numeral(i) + q) == if i < |docs| then Resolve(docs[i], q) else None
    {
      ResolveInList(doc.fields, "connectors", "/connectors/", i, q);
    }
  }

  lemma ConnectorReports(doc: Json)
    requires DecodeNewConnector(doc).Some?
    ensures ReportsPlacesOf(ConnectorDown(DecodeNewConnector(doc).value).lossy, doc, ConnectorPlace)
  {
    hide DecodeNewConnector, ConnectorDown, Carries;
    var report := ConnectorDown(DecodeNewConnector(doc).value).lossy;
    forall q: string
      ensures q in report <==> ConnectorPlace(q) && Carries(doc, q)
    {
      ConnectorReport(doc, q);
    }
  }

  lemma ConnectorsReport(docs: seq<Json>, connectors: seq<New.Connector>)
    requires |connectors| == |docs|
    requires forall i :: 0 <= i < |docs| ==> DecodeNewConnector(docs[i]) == Some(connectors[i])
    ensures ReportsPlaces(ConnectorDown, connectors, docs, ConnectorPlace)
  {
    hide DecodeNewConnector, ConnectorDown, Carries, ReportsPlacesOf;
    forall i | 0 <= i < |docs|
      ensures ReportsPlacesOf(ConnectorDown(connectors[i]).lossy, docs[i], ConnectorPlace)
    {
      ConnectorReports(docs[i]);
    }
  }

  lemma EvseReport(doc: Json, p: string)
    requires DecodeNewEvse(doc).Some?
    ensures p in EvseDown(DecodeNewEvse(doc).value).lossy <==> EvsePlace(p) && Carries(doc, p)
  {
    hide DecodeNewEvse, DecodeNewConnector, ConnectorDown, ConvertAll, Carries, When, ReportsPlaces, ListedAt, Within;
    var connectors := DecodeNewEvse(doc).value.connectors;
    var docs := ConnectorDocs(doc);
    ConnectorsReport(docs, connectors);
    ConnectorsListed(doc, docs);
    EvseOwnReport(doc, p);
    ListPlaces(ConnectorDown, connectors, docs, ConnectorPlace, "/connectors/", doc, p);
  }

  lemma EvsesListed(doc: Json, docs: seq<Json>)
    requires doc.Object?
    requires if "evses" in doc.fields then doc.fields["evses"] == Array(docs) else docs == []
    ensures ListedAt(doc, docs, EvsePlace, "/evses/")
  {
    ListPointers();
    EvsesIsAName();
    hide Numeral, Resolve, Names, EvsePlace;
    forall i: nat, q: string | EvsePlace(q)
      ensures Resolve(doc, "/evses/" + Numeral(i) + q) == if i < |docs| then Resolve(docs[i], q) else None
    {
      PlacesAreRooted(q);
      ResolveInList(doc.fields, "evses", "/evses/", i, q);
    }
  }

  lemma EvseReports(doc: Json)
    requires DecodeNewEvse(doc).Some?
    ensures ReportsPlacesOf(EvseDown(DecodeNewEvse(doc).value).lossy, doc, EvsePlace)
  {
    hide DecodeNewEvse, EvseDown, Carries, EvsePlace;
    var report := EvseDown(DecodeNewEvse(doc).value).lossy;
    forall q: string
      ensures q in report <==> EvsePlace(q) && Carries(doc, q)
    {
      EvseReport(doc, q);
    }
  }

  lemma EvsesReport(docs: seq<Json>, evses: seq<New.Evse>)
    requires |evses| == |docs|
    requires forall i :: 0 <= i < |docs| ==> DecodeNewEvse(docs[i]) == Some(evses[i])
    ensures ReportsPlaces(EvseDown, evses, docs, EvsePlace)
  {
    hide DecodeNewEvse, EvseDown, Carries, ReportsPlacesOf;
    forall i | 0 <= i < |docs|
      ensures ReportsPlacesOf(EvseDown(evses[i]).lossy, docs[i], EvsePlace)
    {
      EvseReports(docs[i]);
    }
  }

  lemma LocationReport(doc: Json, p: string)
    requires DecodeNewLocation(doc).Some?
    ensures p in LocationDown(DecodeNewLocation(doc).value).lossy <==> LocationPlace(p) && Carries(doc, p)
  {
    hide DecodeNewLocation, DecodeNewEvse, EvseDown, ConvertAll, Carries, When, EvsePlace, ReportsPlaces, ListedAt,
         Within;
    var evses := DecodeNewLocation(doc).value.evses;
    var docs := EvseDocs(doc);
    EvsesReport(docs, evses);
    EvsesListed(doc, docs);
    LocationOwnReport(doc, p);
    ListPlaces(EvseDown, evses, docs, EvsePlace, "/evses/", doc, p);
  }

  /** One location of a page that goes down. */
  lemma LocationGoesDown(doc: Json)
    ensures BridgedOne(Location, V2_3_0, V2_2_1, doc)
            == match DecodeNewLocation(doc)
               case None => Err(Decode(V2_3_0, Location))
               case Some(l) => Ok(Converted(EncodeOldLocation(LocationDown(l).value), LocationDown(l).lossy))
  {
    hide DecodeNewLocation, EncodeOldLocation, LocationDown, Up, DownEvse, DownConnector, DownSession, DownCdr,
         DownTariff, DownCredentials, DownClientInfo, Kept;
  }

  /** A page of Locations that goes down is a list of Locations converted one by one. */
  lemma {:induction false} PageIsAList(items: seq<Json>) returns (locations: seq<New.Location>)
    requires BridgedPage(Location, V2_3_0, V2_2_1, items).Ok?
    ensures |locations| == |items|
    ensures forall i :: 0 <= i < |items| ==> DecodeNewLocation(items[i]) == Some(locations[i])
    ensures BridgedPage(Location, V2_3_0, V2_2_1, items).value.lossy == ConvertAll(LocationDown, locations, "/").lossy
  {
    hide DecodeNewLocation, EncodeOldLocation, LocationDown, Numeral, BridgedOne;
    locations := [];
    if items == [] {
    } else {
      var n := |items| - 1;
      LocationGoesDown(items[n]);
      locations := PageIsAList(items[..n]);
      var last := DecodeNewLocation(items[n]).value;
      assert (locations + [last])[..n] == locations;
      locations := locations + [last];
    }
  }

  /**
   * The loss report of a page of Locations holds exactly the present fields that 2.2.1 lacks: of
   * the locations, of their EVSEs and of the connectors of those, each under a pointer that
   * resolves in the page.
   */
  lemma PageReport(items: seq<Json>, p: string)
    requires Bridged(Location, V2_3_0, V2_2_1, Array(items)).Ok?
    ensures p in Bridged(Location, V2_3_0, V2_2_1, Array(items)).value.lossy
            <==> PagePlace(p) && Carries(Array(items), p)
  {
    hide BridgedPage, BridgedOne, LocationDown, ConvertAll, Carries, LocationPlace, ReportsPlaces, ListedAt, Within,
         DecodeNewLocation, EncodeOldLocation;
    var locations := PageIsAList(items);
    LocationsReport(items, locations);
    LocationsListed(items);
    ListPlaces(LocationDown, locations, items, LocationPlace, "/", Array(items), p);
  }

  lemma LocationsListed(items: seq<Json>)
    ensures ListedAt(Array(items), items, LocationPlace, "/")
  {
    hide Numeral, Resolve, LocationPlace;
    forall i: nat, q: string | LocationPlace(q)
      ensures Resolve(Array(items), "/" + Numeral(i) + q) == if i < |items| then Resolve(items[i], q) else None
    {
      PlacesAreRooted(q);
      ResolveInArray(items, i, q);
    }
  }

  lemma LocationReports(doc: Json)
    requires DecodeNewLocation(doc).Some?
    ensures ReportsPlacesOf(LocationDown(DecodeNewLocation(doc).value).lossy, doc, LocationPlace)
  {
    hide DecodeNewLocation, LocationDown, Carries, LocationPlace;
    var report := LocationDown(DecodeNewLocation(doc).value).lossy;
    forall q: string
      ensures q in report <==> LocationPlace(q) && Carries(doc, q)
    {
      LocationReport(doc, q);
    }
  }

  lemma LocationsReport(items: seq<Json>, locations: seq<New.Location>)
    requires |locations| == |items|
    requires forall i :: 0 <= i < |items| ==> DecodeNewLocation(items[i]) == Some(locations[i])
    ensures ReportsPlaces(LocationDown, locations, items, LocationPlace)
  {
    hide DecodeNewLocation, LocationDown, Carries, ReportsPlacesOf;
    forall i | 0 <= i < |items|
      ensures ReportsPlacesOf(LocationDown(locations[i]).lossy, items[i], LocationPlace)
    {
      LocationReports(items[i]);
    }
  }

  // ---------------------------------------------------------------------------------------
  // Each loss once
  // ---------------------------------------------------------------------------------------

  predicate Distinct(report: Report) {
    forall i, j :: 0 <= i < j < |report| ==> report[i] != report[j]
  }

  predicate AllRooted(report: Report) {
    forall p :: p in report ==> Rooted(p)
  }

  /** A pointer under an index says which index. */
  lemma IndexIsUnique(at: string, i: nat, q: string, j: nat, r: string)
    requires Rooted(q) && Rooted(r) && at + Numeral(i) + q == at + Numeral(j) + r
    ensures i == j && q == r
  {
    var a, b := Numeral(i) + q, Numeral(j) + r;
    assert (at + Numeral(i) + q)[|at|..] == a && (at + Numeral(j) + r)[|at|..] == b;
    NumeralIsPlain(i);
    NumeralIsPlain(j);
    TokenLengthPlain(Numeral(i), q);
    TokenLengthPlain(Numeral(j), r);
    assert a[..|Numeral(i)|] == Numeral(i) && b[..|Numeral(j)|] == Numeral(j);
    assert a[|Numeral(i)|..] == q && b[|Numeral(j)|..] == r;
    NumeralValue(i);
    NumeralValue(j);
  }

  lemma LiftDistinct(at: string, report: Report)
    requires Distinct(report)
    ensures Distinct(Lift(at, report))
  {
    var lifted := Lift(at, report);
    forall i, j | 0 <= i < j < |lifted|
      ensures lifted[i] != lifted[j]
    {
      assert lifted[i][|at|..] == report[i] && lifted[j][|at|..] == report[j];
    }
  }

  lemma DistinctConcat(a: Report, b: Report)
    requires Distinct(a) && Distinct(b) && forall p :: p in a ==> p !in b
    ensures Distinct(a + b)
  {
    forall i, j | 0 <= i < j < |a + b|
      ensures (a + b)[i] != (a + b)[j]
    {
      if i < |a| <= j {
        assert a[i] in a && b[j - |a|] in b;
      }
    }
  }

  /** A list names no loss twice when none of its elements does. */
  lemma {:induction false} ListDistinct<T, U>(convert: T -> Converted<U>, items: seq<T>, at: string)
    requires forall x :: x in items ==> Distinct(convert(x).lossy) && AllRooted(convert(x).lossy)
    ensures Distinct(ConvertAll(convert, items, at).lossy)
  {
    if items == [] {
    } else {
      hide Numeral, Distinct, Rooted;
      var n := |items| - 1;
      assert items[n] in items;
      ListDistinct(convert, items[..n], at);
      var init, last := ConvertAll(convert, items[..n], at).lossy, convert(items[n]).lossy;
      LiftDistinct(at + Numeral(n), last);
      forall p | p in init
        ensures p !in Lift(at + Numeral(n), last)
      {
        ListReport(convert, items[..n], at, p);
        var i: nat, q: string :| IsAt(at, i, q, p) && i < n && q in convert(items[..n][i]).lossy;
        assert items[..n][i] in items;
        if k :| 0 <= k < |last| && p == at + Numeral(n) + last[k] {
          assert last[k] in last;
          IndexIsUnique(at, i, q, n, last[k]);
        }
      }
      DistinctConcat(init, Lift(at + Numeral(n), last));
    }
  }

  /** The losses of a list start with where the list is. */
  lemma {:induction false} ListStarts<T, U>(convert: T -> Converted<U>, items: seq<T>, at: string)
    ensures forall p :: p in ConvertAll(convert, items, at).lossy ==> at <= p
  {
    if items == [] {
    } else {
      ListStarts(convert, items[..|items| - 1], at);
    }
  }

  lemma ConnectorOnce(c: New.Connector)
    ensures Distinct(ConnectorDown(c).lossy) && AllRooted(ConnectorDown(c).lossy)
  {
  }

  lemma EvseOnce(e: New.Evse)
    ensures Distinct(EvseDown(e).lossy) && AllRooted(EvseDown(e).lossy)
  {
    forall c | c in e.connectors
      ensures Distinct(ConnectorDown(c).lossy) && AllRooted(ConnectorDown(c).lossy)
    {
      ConnectorOnce(c);
    }
    hide ConvertAll, ConnectorDown;
    ListDistinct(ConnectorDown, e.connectors, "/connectors/");
    ListStarts(ConnectorDown, e.connectors, "/connectors/");
    var own := When(e.parking != [], "/parking")
               + When(e.acceptedServiceProviders != [], "/accepted_service_providers");
    OwnBeforeList(own, "/connectors/", ConvertAll(ConnectorDown, e.connectors, "/connectors/").lossy);
  }

  lemma LocationOnce(l: New.Location)
    ensures Distinct(LocationDown(l).lossy) && AllRooted(LocationDown(l).lossy)
  {
    forall e | e in l.evses
      ensures Distinct(EvseDown(e).lossy) && AllRooted(EvseDown(e).lossy)
    {
      EvseOnce(e);
    }
    hide ConvertAll, EvseDown;
    ListDistinct(EvseDown, l.evses, "/evses/");
    ListStarts(EvseDown, l.evses, "/evses/");
    var own := When(l.parkingPlaces != [], "/parking_places") + When(l.helpPhone.Some?, "/help_phone");
    OwnBeforeList(own, "/evses/", ConvertAll(EvseDown, l.evses, "/evses/").lossy);
  }

  lemma OwnBeforeList(own: Report, at: string, listed: Report)
    requires Distinct(own) && AllRooted(own) && Distinct(listed)
    requires |at| > 1 && Rooted(at) && forall p :: p in listed ==> at <= p
    requires forall p :: p in own ==> |p| > 1 && p[1] != at[1]
    ensures Distinct(own + listed) && AllRooted(own + listed)
  {
    forall p | p in listed
      ensures p !in own && Rooted(p)
    {
      assert p[0] == at[0] && p[1] == at[1];
    }
    DistinctConcat(own, listed);
  }

  /** The loss report of a page names each loss once. */
  lemma PageReportsOnce(items: seq<Json>)
    requires Bridged(Location, V2_3_0, V2_2_1, Array(items)).Ok?
    ensures Distinct(Bridged(Location, V2_3_0, V2_2_1, Array(items)).value.lossy)
  {
    hide BridgedPage, BridgedOne, LocationDown, ConvertAll, DecodeNewLocation, EncodeOldLocation;
    var locations := PageIsAList(items);
    forall l | l in locations
      ensures Distinct(LocationDown(l).lossy) && AllRooted(LocationDown(l).lossy)
    {
      LocationOnce(l);
    }
    ListDistinct(LocationDown, locations, "/");
  }
}
