/**
 * Documents whose undocumented members bear a name only the other version spells out: what they
 * cross to and back is never what they were.
 */
module Clashes {
  import opened Wrappers
  import opened Json
  import opened Shapes
  import opened Codec
  import opened Convert
  import opened Wire
  import opened RoundTrip
  import opened Documents
  import Bridging
  import Old = Ocpi221

  /** The names 2.3.0 spells out and 2.2.1 does not. */
  function AddedNames(kind: ObjectKind): set<string> {
    NewFields(kind) - OldFields(kind)
  }

  lemma UpIsObject(kind: ObjectKind, f: Fields)
    ensures var crossed := Bridged(kind, V2_2_1, V2_3_0, Object(f));
            crossed.Ok? ==> crossed.value.value.Object?
  {
    hide Crossed, BridgedOne, BridgedPage, OldFields, NewFields, SharedFields, Rewritten;
    Bridging.BridgedObject(kind, V2_2_1, V2_3_0, f);
    if Crossed(kind, true, Object(f)).Some? {
      var own, lossy := CrossedRewrites(kind, true, f, f);
    }
  }

  /** Such a member is never in what comes back, whatever it held. */
  lemma ClashIsLost(kind: ObjectKind, f: Fields, back: Json, name: string)
    requires ComesBackAs(kind, Object(f), back) && name in AddedNames(kind)
    ensures back.Object? && name !in back.fields
  {
    hide Bridged, OldFields, NewFields;
    var up :| Crosses(kind, V2_2_1, V2_3_0, Object(f), up) && Crosses(kind, V2_3_0, V2_2_1, up, back);
    UpIsObject(kind, f);
    Bridging.DownLacksNewFields(kind, up.fields, name);
  }

  /** On the way up such a member is carried as it is, over whatever 2.3.0 writes of its own. */
  lemma ClashIsCarried(kind: ObjectKind, f: Fields, name: string)
    requires Bridged(kind, V2_2_1, V2_3_0, Object(f)).Ok? && name in f && name in AddedNames(kind)
    ensures var up := Bridged(kind, V2_2_1, V2_3_0, Object(f)).value.value;
            up.Object? && Get(up.fields, name) == Some(f[name])
  {
    hide Crossed, BridgedOne, BridgedPage, OldFields, NewFields, SharedFields, RewrittenFields, DivergentFields;
    Bridging.BridgedObject(kind, V2_2_1, V2_3_0, f);
    var own, lossy := CrossedRewrites(kind, true, f, f);
    AddedIsUndocumented(kind, name);
    WrittenMembers(SharedFields(kind), f - OldFields(kind), name);
  }

  lemma AddedIsUndocumented(kind: ObjectKind, name: string)
    requires name in AddedNames(kind)
    ensures name !in SharedFields(kind)
  {
    Bridging.SharedApart(kind);
    Bridging.SpelledOutDiverge(kind, false);
    hide SharedFields, NewFields, OldFields, DivergentFields;
  }

  /**
   * So a location with an undocumented `help_phone` crosses without a word; on the way back it is
   * reported as lost when it is a text, and the document is refused when it is anything else but null.
   */
  lemma HelpPhoneIsLostOrRefused(f: Fields)
    requires Bridged(Location, V2_2_1, V2_3_0, Object(f)).Ok? && "help_phone" in f && !f["help_phone"].Null?
    ensures Bridged(Location, V2_2_1, V2_3_0, Object(f)).value.lossy == []
    ensures var down := Bridged(Location, V2_3_0, V2_2_1, Bridged(Location, V2_2_1, V2_3_0, Object(f)).value.value);
            if f["help_phone"].Str? then down.Ok? ==> "/help_phone" in down.value.lossy
            else down == Err(Decode(V2_3_0, Location))
  {
    ClashIsCarried(Location, f, "help_phone");
    hide Bridged, UpLocation, DownLocation;
    var up := Bridged(Location, V2_2_1, V2_3_0, Object(f)).value.value;
    LocationCrosses(f);
    LocationCrosses(up.fields);
    UpLocationIsLossless(f);
    DownReadsHelpPhone(up.fields);
  }

  lemma LocationCrosses(f: Fields)
    ensures Bridged(Location, V2_2_1, V2_3_0, Object(f))
            == var r := UpLocation(Object(f)); if r.None? then Err(Decode(V2_2_1, Location)) else Ok(r.value)
    ensures Bridged(Location, V2_3_0, V2_2_1, Object(f))
            == var r := DownLocation(Object(f)); if r.None? then Err(Decode(V2_3_0, Location)) else Ok(r.value)
  {
    assert Bridging.Crossing(V2_2_1, V2_3_0) && Bridging.Crossing(V2_3_0, V2_2_1);
    hide *;
    Bridging.BridgedObject(Location, V2_2_1, V2_3_0, f);
    Bridging.BridgedObject(Location, V2_3_0, V2_2_1, f);
    CrossedByWay(Location, Object(f));
    CrossingByKind(Object(f));
  }

  lemma CrossedByWay(kind: ObjectKind, doc: Json)
    ensures Crossed(kind, true, doc) == Up(kind, doc) && Crossed(kind, false, doc) == Down(kind, doc)
  {
    hide Up, Down;
  }

  lemma UpLocationIsLossless(f: Fields)
    requires UpLocation(Object(f)).Some?
    ensures UpLocation(Object(f)).value.lossy == []
  {
    hide DecodeOldLocation, EncodeNewLocation, LocationUp, LocationDown;
    LocationRoundTrip(DecodeOldLocation(Object(f)).value);
  }

  lemma DownReadsHelpPhone(f: Fields)
    requires "help_phone" in f && !f["help_phone"].Null?
    ensures if f["help_phone"].Str? then
              DownLocation(Object(f)).Some? ==> "/help_phone" in DownLocation(Object(f)).value.lossy
            else DownLocation(Object(f)).None?
  {
    hide Shared, Decoded, ItemsOrNone, EncodeOldLocation, ConvertAll;
  }

  // ---------------------------------------------------------------------------------------
  // Exactly which documents come back
  // ---------------------------------------------------------------------------------------

  /** The document bears no name only 2.3.0 spells out. */
  predicate OwnApart(kind: ObjectKind, doc: Json) {
    doc.Object? ==> doc.fields.Keys !! AddedNames(kind)
  }

  /** Nor do the objects in it. */
  predicate PartsApart(kind: ObjectKind, doc: Json) {
    match kind
    case Evse =>
      DecodeOldEvse(doc).Some? ==> forall c :: c in DecodeOldEvse(doc).value.connectors ==> ApartConnector(c)
    case Location =>
      DecodeOldLocation(doc).Some? ==> forall e :: e in DecodeOldLocation(doc).value.evses ==> ApartEvse(e)
    case Tariff =>
      DecodeOldTariff(doc).Some? ==>
        var t := DecodeOldTariff(doc).value; CleanOldPriceCost(t.minPrice) && CleanOldPriceCost(t.maxPrice)
    case Session => DecodeOldSession(doc).Some? ==> CleanOldPriceCost(DecodeOldSession(doc).value.totalCost)
    case Cdr => DecodeOldCdr(doc).Some? ==> ApartCosts(DecodeOldCdr(doc).value)
    case _ => true
  }

  /** The tariffs and costs of a CDR bear no such name. */
  predicate ApartCosts(c: Old.Cdr) {
    && (forall t :: t in c.tariffs ==> ApartTariff(t))
    && CleanOldPrice(c.totalCost) && CleanOldPriceCost(c.totalFixedCost) && CleanOldPriceCost(c.totalEnergyCost)
    && CleanOldPriceCost(c.totalTimeCost) && CleanOldPriceCost(c.totalParkingCost)
    && CleanOldPriceCost(c.totalReservationCost)
  }

  /** What 2.2.1 writes of a document keeps the members it does not document. */
  lemma WrittenRest(kind: ObjectKind, f: Fields) returns (own: Fields)
    requires AsWritten(kind, Object(f)).Some?
    ensures Shared(kind, f - OldFields(kind)).Some? && own.Keys <= OldFields(kind)
    ensures AsWritten(kind, Object(f)) == Some(Object(own + Shared(kind, f - OldFields(kind)).value))
  {
    hide Shared, Decoded, Optional, ItemsOrNone, OldPriceIn, EncodeAll, OldPriceMember, ListMember;
    match kind
    case Connector =>
      own := map[];
      assert f - {} == f && own + Shared(Connector, f).value == Shared(Connector, f).value;
    case Evse => own := OldEvseMembers(DecodeOldEvse(Object(f)).value);
    case Location => own := OldLocationMembers(DecodeOldLocation(Object(f)).value);
    case Tariff => own := OldTariffMembers(DecodeOldTariff(Object(f)).value);
    case Session => own := OldSessionMembers(DecodeOldSession(Object(f)).value);
    case Cdr => own := OldCdrMembers(DecodeOldCdr(Object(f)).value);
  }

  lemma ObjectsAreWritten(kind: ObjectKind, doc: Json)
    requires AsWritten(kind, doc).Some?
    ensures doc.Object?
  {
    hide Shared, Decoded, Optional, ItemsOrNone, OldPriceIn;
  }

  /** A document clashes in its own members or in its parts. */
  lemma UnclashingInParts(kind: ObjectKind, f: Fields)
    requires AsWritten(kind, Object(f)).Some? && Shared(kind, f - OldFields(kind)).Some?
    ensures Unclashing(kind, Object(f))
            <==> Apart(kind, Shared(kind, f - OldFields(kind)).value) && PartsApart(kind, Object(f))
  {
    hide Shared, Decoded, Optional, ItemsOrNone, OldPriceIn, Apart, CleanOldPrice, CleanOldPriceCost,
         EncodeOldConnector, EncodeOldEvse, EncodeOldLocation, EncodeOldTariff, EncodeOldSession, EncodeOldCdr;
    assert f - {} == f;
  }

  lemma ApartAsRead(kind: ObjectKind, f: Fields)
    requires Shared(kind, f - OldFields(kind)).Some?
    ensures Apart(kind, Shared(kind, f - OldFields(kind)).value) <==> OwnApart(kind, Object(f))
  {
    hide SharedFields, RewrittenFields, OldFields, NewFields, DivergentFields;
    Bridging.ListIsExact(kind);
    Bridging.SharedApart(kind);
    var g := f - OldFields(kind);
    Bridging.WrittenOnly(SharedFields(kind), g);
    forall name | name in f && name in AddedNames(kind)
      ensures name in Shared(kind, g).value
    {
      WrittenMembers(SharedFields(kind), g, name);
    }
  }

  /**
   * A 2.2.1 document whose parts bear no name only 2.3.0 spells out crosses and comes back without
   * a loss, and as 2.2.1 writes it, exactly when it bears none either.
   */
  lemma ComesBackAsWrittenExactly(kind: ObjectKind, doc: Json)
    requires AsWritten(kind, doc).Some? && PartsApart(kind, doc)
    ensures ComesBackAs(kind, doc, AsWritten(kind, doc).value) <==> OwnApart(kind, doc)
  {
    hide Shared, ComesBackAs, AsWritten, Unclashing, PartsApart, OldFields, NewFields, SharedFields, DivergentFields;
    ObjectsAreWritten(kind, doc);
    var own := WrittenRest(kind, doc.fields);
    UnclashingInParts(kind, doc.fields);
    ApartAsRead(kind, doc.fields);
    if OwnApart(kind, doc) {
      DocumentsComeBack(kind, doc);
    } else {
      var name :| name in doc.fields && name in AddedNames(kind);
      WrittenName(kind, doc.fields, name);
      if ComesBackAs(kind, doc, AsWritten(kind, doc).value) {
        ClashIsLost(kind, doc.fields, AsWritten(kind, doc).value, name);
        assert false;
      }
    }
  }

  lemma WrittenName(kind: ObjectKind, f: Fields, name: string)
    requires AsWritten(kind, Object(f)).Some? && name in f && name in AddedNames(kind)
    ensures AsWritten(kind, Object(f)).value.Object? && name in AsWritten(kind, Object(f)).value.fields
  {
    hide AsWritten, OldFields, NewFields, SharedFields, RewrittenFields;
    var own := WrittenRest(kind, f);
    AddedIsUndocumented(kind, name);
    WrittenMembers(SharedFields(kind), f - OldFields(kind), name);
  }

  /** And it is the document it was exactly when it already was as 2.2.1 writes it, too. */
  lemma ComesBackExactly(kind: ObjectKind, doc: Json)
    requires AsWritten(kind, doc).Some? && PartsApart(kind, doc)
    ensures ComesBackAs(kind, doc, doc) <==> OwnApart(kind, doc) && AsWritten(kind, doc) == Some(doc)
  {
    hide Shared, ComesBackAs, AsWritten, Unclashing, PartsApart, OldFields, NewFields;
    ObjectsAreWritten(kind, doc);
    var own := WrittenRest(kind, doc.fields);
    UnclashingInParts(kind, doc.fields);
    ApartAsRead(kind, doc.fields);
    if OwnApart(kind, doc) {
      DocumentsComeBackExactly(kind, doc);
    } else {
      var name :| name in doc.fields && name in AddedNames(kind);
      if ComesBackAs(kind, doc, doc) {
        ClashIsLost(kind, doc.fields, doc, name);
        assert false;
      }
    }
  }

  /** A document that comes back as 2.2.1 writes it is from then on given back by every further trip. */
  lemma TripsSettle(kind: ObjectKind, doc: Json)
    requires AsWritten(kind, doc).Some? && PartsApart(kind, doc)
    requires ComesBackAs(kind, doc, AsWritten(kind, doc).value)
    ensures ComesBackAs(kind, AsWritten(kind, doc).value, AsWritten(kind, doc).value)
  {
    hide Shared, ComesBackAs, AsWritten, Unclashing, PartsApart, OldFields, NewFields, OwnApart;
    ObjectsAreWritten(kind, doc);
    var own := WrittenRest(kind, doc.fields);
    UnclashingInParts(kind, doc.fields);
    ApartAsRead(kind, doc.fields);
    ComesBackAsWrittenExactly(kind, doc);
    SecondTripChangesNothing(kind, doc);
  }
}
