/**
 * What bridging a document promises: patches outside the divergent fields commute with it, up to
 * writing the fields both versions share, and nothing else outside those fields moves.
 */
module Bridging {
  import opened Wrappers
  import opened Json
  import opened Shapes
  import opened Codec
  import opened Convert
  import opened Wire
  import Objects

  predicate Crossing(from: VersionNumber, to: VersionNumber) {
    Bridgeable(from, to) && from != to
  }

  lemma BridgedObject(kind: ObjectKind, from: VersionNumber, to: VersionNumber, f: Fields)
    requires Crossing(from, to)
    ensures var crossed := Crossed(kind, from.V2_2_1?, Object(f));
            Bridged(kind, from, to, Object(f)) == if crossed.None? then Err(Decode(from, kind)) else Ok(crossed.value)
  {
    hide Up, Down;
  }

  /** The crossings are refused exactly between versions that are not bridgeable, for any object. */
  lemma UnsupportedExactly(kind: ObjectKind, from: VersionNumber, to: VersionNumber, f: Fields)
    ensures Bridged(kind, from, to, Object(f)) == Err(Unsupported(from, to)) <==> !Bridgeable(from, to)
  {
    hide Up, Down;
  }

  // ---------------------------------------------------------------------------------------
  // The divergent fields
  // ---------------------------------------------------------------------------------------

  /** The divergent fields are exactly those one version or the other spells out. */
  lemma ListIsExact(kind: ObjectKind)
    ensures DivergentFields(kind) == OldFields(kind) + NewFields(kind)
  {
  }

  lemma SpelledOutDiverge(kind: ObjectKind, up: bool)
    ensures SpelledOut(kind, up) <= DivergentFields(kind)
  {
    ListIsExact(kind);
    hide DivergentFields, OldFields, NewFields;
  }

  lemma LocationApart()
    ensures Objects.LocationFields().Keys !! DivergentFields(Location)
  {
    hide Objects.Table, Objects.LocationPart;
  }

  lemma EvseApart()
    ensures Objects.EvseFields().Keys !! DivergentFields(Evse)
  {
    hide Objects.Table, Objects.EvsePart;
  }

  lemma ConnectorApart()
    ensures Objects.ConnectorFields().Keys !! DivergentFields(Connector)
  {
    hide Objects.Table;
  }

  lemma SessionApart()
    ensures Objects.SessionFields().Keys !! DivergentFields(Session)
  {
    hide Objects.Table, Objects.SessionPart;
  }

  lemma CdrCostsApart(name: string)
    requires name in ["total_cost", "total_fixed_cost", "total_energy_cost", "total_time_cost"]
    ensures name !in Objects.CdrFields()
  {
    hide Objects.Table, Objects.CdrPart;
  }

  lemma CdrOthersApart(name: string)
    requires name in ["tariffs", "booking_id", "total_parking_cost", "total_reservation_cost"]
    ensures name !in Objects.CdrFields()
  {
    hide Objects.Table, Objects.CdrPart;
  }

  lemma CdrApart()
    ensures Objects.CdrFields().Keys !! DivergentFields(Cdr)
  {
    hide Objects.CdrFields;
    forall n | n in DivergentFields(Cdr)
      ensures n !in Objects.CdrFields()
    {
      if n in ["total_cost", "total_fixed_cost", "total_energy_cost", "total_time_cost"] {
        CdrCostsApart(n);
      } else {
        CdrOthersApart(n);
      }
    }
  }

  lemma TariffApart()
    ensures Objects.TariffFields().Keys !! DivergentFields(Tariff)
  {
    hide Objects.Table, Objects.TariffPart;
  }

  lemma CredentialsApart()
    ensures Objects.CredentialsFields().Keys !! DivergentFields(Credentials)
  {
  }

  lemma ClientInfoApart()
    ensures Objects.ClientInfoFields().Keys !! DivergentFields(ClientInfo)
  {
  }

  lemma NothingDiverges(kind: ObjectKind)
    requires kind.Token? || kind.AuthorizationInfo? || kind.StartSession? || kind.ReserveNow?
    ensures DivergentFields(kind) == {}
  {
  }

  lemma SharedTable(kind: ObjectKind)
    ensures match kind
            case Location => SharedFields(kind) == Objects.LocationFields()
            case Evse => SharedFields(kind) == Objects.EvseFields()
            case Connector => SharedFields(kind) == Objects.ConnectorFields()
            case Session => SharedFields(kind) == Objects.SessionFields()
            case Cdr => SharedFields(kind) == Objects.CdrFields()
            case Tariff => SharedFields(kind) == Objects.TariffFields()
            case Credentials => SharedFields(kind) == Objects.CredentialsFields()
            case ClientInfo => SharedFields(kind) == Objects.ClientInfoFields()
            case _ => true
  {
    hide Objects.LocationFields, Objects.EvseFields, Objects.ConnectorFields, Objects.SessionFields,
         Objects.CdrFields, Objects.TariffFields, Objects.CredentialsFields, Objects.ClientInfoFields,
         Objects.TokenFields, Objects.AuthorizationInfoFields, Objects.StartSessionFields, Objects.ReserveNowFields;
  }

  /** A field is either shared or divergent, never both. */
  lemma SharedApart(kind: ObjectKind)
    ensures SharedFields(kind).Keys !! DivergentFields(kind)
  {
    SharedTable(kind);
    hide SharedFields, DivergentFields, Objects.LocationFields, Objects.EvseFields, Objects.ConnectorFields,
         Objects.SessionFields, Objects.CdrFields, Objects.TariffFields, Objects.CredentialsFields,
         Objects.ClientInfoFields;
    match kind
    case Location => LocationApart();
    case Evse => EvseApart();
    case Connector => ConnectorApart();
    case Session => SessionApart();
    case Cdr => CdrApart();
    case Tariff => TariffApart();
    case Credentials => CredentialsApart();
    case ClientInfo => ClientInfoApart();
    case _ => NothingDiverges(kind);
  }

  // ---------------------------------------------------------------------------------------
  // Patches outside the divergent fields
  // ---------------------------------------------------------------------------------------

  /** A document with its shared fields as they are written: null and empty ones left out, at every depth. */
  function Tidied(kind: ObjectKind, doc: Json): Option<Json> {
    Rewritten(Record(SharedFields(kind)), doc)
  }

  /** Two documents that differ by a patch outside the divergent fields spell out the same. */
  lemma PatchedSpellsOutTheSame(kind: ObjectKind, up: bool, f: Fields, patch: Json)
    requires patch.Object? && PatchCrossesUnchanged(kind, patch.fields.Keys)
    ensures var (g, spelled) := (MergeFields(f, patch), SpelledOut(kind, up));
            SameSpelledOut(kind, up, f, g) && g - spelled == MergeFields(f - spelled, patch)
  {
    SpelledOutDiverge(kind, up);
    hide SpelledOut, DivergentFields;
    assert patch.fields.Keys !! SpelledOut(kind, up);
    MergeOutside(f, patch, SpelledOut(kind, up));
    hide MergeFields;
  }

  /** What a crossing keeps and what it spells out, put together, is written as it is. */
  lemma CrossedIsTidy(kind: ObjectKind, up: bool, own: Fields, f: Fields)
    requires own.Keys <= SpelledOut(kind, up) && Shared(kind, f).Some?
    ensures own.Keys !! SharedFields(kind).Keys
    ensures RewrittenFields(SharedFields(kind), own + Shared(kind, f).value) == Some(own + Shared(kind, f).value)
    ensures TidyMembers(SharedFields(kind), own + Shared(kind, f).value)
  {
    SharedApart(kind);
    SpelledOutDiverge(kind, up);
    hide SharedFields, SpelledOut, DivergentFields, RewrittenFields, TidyMembers;
    var (fields, rest) := (SharedFields(kind), Shared(kind, f).value);
    FieldsTwice(fields, f);
    RewrittenBeside(fields, own, rest);
    TidyObject(fields, own + rest);
  }

  /** One crossing commutes with a patch outside the divergent fields, up to writing the shared ones. */
  lemma CrossingCommutes(kind: ObjectKind, up: bool, f: Fields, patch: Json)
    requires patch.Object? && PatchCrossesUnchanged(kind, patch.fields.Keys)
    requires Crossed(kind, up, Object(f)).Some?
    ensures var before := Crossed(kind, up, Object(f)).value;
            var after := Crossed(kind, up, Object(MergeFields(f, patch)));
            var tidied := Tidied(kind, Merge(Some(before.value), patch));
            && after == (if tidied.None? then None else Some(Converted(tidied.value, before.lossy)))
            && before.value.Object? && TidyMembers(SharedFields(kind), before.value.fields)
  {
    hide Crossed, DivergentFields, SharedFields, SpelledOut, SameSpelledOut, MergeFields, RewrittenFields, TidyMembers,
         PatchCrossesUnchanged;
    var (g, spelled, fields) := (MergeFields(f, patch), SpelledOut(kind, up), SharedFields(kind));
    PatchedSpellsOutTheSame(kind, up, f, patch);
    var own, lossy := CrossedRewrites(kind, up, f, g);
    var rest := Shared(kind, f - spelled).value;
    CrossedIsTidy(kind, !up, own, f - spelled);
    PatchRewrittenFields(fields, f - spelled, patch);
    OwnUnpatched(kind, up, own, patch);
    MergeBeside(own, rest, patch);
    RewrittenBeside(fields, own, MergeFields(rest, patch));
  }

  lemma OwnUnpatched(kind: ObjectKind, up: bool, own: Fields, patch: Json)
    requires patch.Object? && PatchCrossesUnchanged(kind, patch.fields.Keys) && own.Keys <= SpelledOut(kind, !up)
    ensures patch.fields.Keys !! own.Keys
  {
    SpelledOutDiverge(kind, !up);
    hide SpelledOut, DivergentFields;
  }

  /**
   * Patching a document and then bridging it is bridging it, patching, and writing the shared
   * fields, for every kind of object and every pair of versions: the bridge accepts the patched
   * document exactly when the patched bridged document can be read, and reports the same losses.
   */
  lemma PatchCommutes(kind: ObjectKind, from: VersionNumber, to: VersionNumber, f: Fields, patch: Json)
    requires patch.Object? && PatchCrossesUnchanged(kind, patch.fields.Keys)
    requires Bridged(kind, from, to, Object(f)).Ok?
    ensures var before := Bridged(kind, from, to, Object(f)).value;
            var after := Bridged(kind, from, to, Merge(Some(Object(f)), patch));
            var patched := Merge(Some(before.value), patch);
            if from == to then after == Ok(Converted(patched, before.lossy))
            else after == match Tidied(kind, patched)
                          case None => Err(Decode(from, kind))
                          case Some(doc) => Ok(Converted(doc, before.lossy))
  {
    hide Crossed, BridgedOne, BridgedPage, MergeFields, PatchCrossesUnchanged, Tidied, SharedFields;
    if from != to {
      assert Merge(Some(Object(f)), patch) == Object(MergeFields(f, patch));
      UnsupportedExactly(kind, from, to, f);
      BridgedObject(kind, from, to, f);
      BridgedObject(kind, from, to, MergeFields(f, patch));
      CrossingCommutes(kind, from.V2_2_1?, f, patch);
    }
  }

  /**
   * Where the bridge accepts the patched document, patching and bridging commute on the nose
   * exactly when no value of the patch would be rewritten: none is an empty list where the list
   * is left out, and none holds a null or such a list at any depth, unless to remove a field.
   */
  lemma PatchCommutesExactly(kind: ObjectKind, from: VersionNumber, to: VersionNumber, f: Fields, patch: Json)
    requires patch.Object? && PatchCrossesUnchanged(kind, patch.fields.Keys)
    requires Bridged(kind, from, to, Object(f)).Ok?
    requires Bridged(kind, from, to, Merge(Some(Object(f)), patch)).Ok?
    ensures var before := Bridged(kind, from, to, Object(f)).value;
            var after := Bridged(kind, from, to, Merge(Some(Object(f)), patch)).value;
            after.value == Merge(Some(before.value), patch)
            <==> from == to || WritesTidily(Record(SharedFields(kind)), patch)
  {
    hide Crossed, Bridged, PatchCrossesUnchanged, WritesTidily, TidyMembers, MergeFields, SharedFields, Rewritten;
    PatchCommutes(kind, from, to, f, patch);
    if from != to {
      BridgedIsTidy(kind, from, to, f, patch);
      PatchStaysTidy(Record(SharedFields(kind)), Some(Bridged(kind, from, to, Object(f)).value.value), patch);
    }
  }

  lemma BridgedIsTidy(kind: ObjectKind, from: VersionNumber, to: VersionNumber, f: Fields, patch: Json)
    requires from != to && Bridged(kind, from, to, Object(f)).Ok?
    requires patch.Object? && PatchCrossesUnchanged(kind, patch.fields.Keys)
    ensures var doc := Bridged(kind, from, to, Object(f)).value.value;
            doc.Object? && TidyMembers(SharedFields(kind), doc.fields)
  {
    hide Crossed, BridgedOne, BridgedPage, PatchCrossesUnchanged, TidyMembers, SharedFields, MergeFields;
    UnsupportedExactly(kind, from, to, f);
    BridgedObject(kind, from, to, f);
    CrossingCommutes(kind, from.V2_2_1?, f, patch);
  }

  /** A list field that is left out when it is empty. */
  predicate LeavesOutEmpty(kind: ObjectKind, name: string) {
    name in SharedFields(kind) && SharedFields(kind)[name].presence.Listed? && SharedFields(kind)[name].shape.Many?
  }

  /**
   * A patch that empties such a list does not commute: bridged before, the patched document holds
   * an empty list; bridged afterwards, it is the same document without that member.
   */
  lemma EmptyListDoesNotCommute(kind: ObjectKind, from: VersionNumber, to: VersionNumber, f: Fields, name: string)
    requires from != to && Bridged(kind, from, to, Object(f)).Ok? && LeavesOutEmpty(kind, name)
    ensures var patch := Object(map[name := Array([])]);
            var before := Bridged(kind, from, to, Object(f)).value;
            var patched := Merge(Some(before.value), patch);
            && patched.Object? && name in patched.fields
            && Bridged(kind, from, to, Merge(Some(Object(f)), patch))
               == Ok(Converted(Object(patched.fields - {name}), before.lossy))
  {
    hide Crossed, Bridged, PatchCrossesUnchanged, SharedFields, DivergentFields, MergeFields;
    var (patch, fields) := (Object(map[name := Array([])]), SharedFields(kind));
    SharedApart(kind);
    assert PatchCrossesUnchanged(kind, patch.fields.Keys) by {
      OnePatchedField(kind, patch, name);
    }
    PatchCommutes(kind, from, to, f, patch);
    BridgedIsTidy(kind, from, to, f, patch);
    var doc := Bridged(kind, from, to, Object(f)).value.value;
    MergedMember(doc.fields, patch, name);
    BridgedCanBeRead(kind, from, to, f, patch);
    EmptiedList(fields, doc.fields, name);
  }

  lemma OnePatchedField(kind: ObjectKind, patch: Json, name: string)
    requires patch.Object? && patch.fields.Keys == {name} && name !in DivergentFields(kind)
    ensures PatchCrossesUnchanged(kind, patch.fields.Keys)
  {
    hide DivergentFields;
  }

  lemma BridgedCanBeRead(kind: ObjectKind, from: VersionNumber, to: VersionNumber, f: Fields, patch: Json)
    requires from != to && Bridged(kind, from, to, Object(f)).Ok?
    requires patch.Object? && PatchCrossesUnchanged(kind, patch.fields.Keys)
    ensures var doc := Bridged(kind, from, to, Object(f)).value.value;
            doc.Object? && RewrittenFields(SharedFields(kind), doc.fields) == Some(doc.fields)
  {
    hide Crossed, BridgedOne, BridgedPage, SharedFields, RewrittenFields, SpelledOut, TidyMembers;
    UnsupportedExactly(kind, from, to, f);
    BridgedObject(kind, from, to, f);
    var up := from.V2_2_1?;
    var own, lossy := CrossedRewrites(kind, up, f, f);
    CrossedIsTidy(kind, !up, own, f - SpelledOut(kind, up));
  }

  lemma ImagesAreAPart()
    ensures Objects.LocationPart("images") == Objects.ListOf(Objects.Image())
  {
    hide Objects.ListOf, Objects.Image;
  }

  /** The images of a location are such a list. */
  lemma ImagesAreLeftOut()
    ensures LeavesOutEmpty(Location, "images")
  {
    ImagesAreAPart();
    hide Objects.LocationPart, Objects.Image;
  }

  // ---------------------------------------------------------------------------------------
  // Fields outside the list
  // ---------------------------------------------------------------------------------------

  /**
   * A crossing keeps an undocumented field as it is and writes a shared one from what was read of
   * it: nothing else outside the divergent list is added, removed or changed.
   */
  lemma OutsideListNothingMoves(kind: ObjectKind, from: VersionNumber, to: VersionNumber, f: Fields, field: string)
    requires Bridged(kind, from, to, Object(f)).Ok? && field !in DivergentFields(kind)
    ensures var crossed := Bridged(kind, from, to, Object(f)).value.value;
            && crossed.Object?
            && if from == to || field !in SharedFields(kind) then Get(crossed.fields, field) == Get(f, field)
               else match ReadField(SharedFields(kind)[field], f, field)
                    case Unreadable => false
                    case LeftOut => field !in crossed.fields
                    case Written(v) => Get(crossed.fields, field) == Some(v)
  {
    hide Crossed, BridgedOne, BridgedPage, DivergentFields, SharedFields, RewrittenFields, SpelledOut, Rewritten;
    if from != to {
      UnsupportedExactly(kind, from, to, f);
      BridgedObject(kind, from, to, f);
      var up := from.V2_2_1?;
      var own, lossy := CrossedRewrites(kind, up, f, f);
      SpelledOutDiverge(kind, up);
      SpelledOutDiverge(kind, !up);
      WrittenMembers(SharedFields(kind), f - SpelledOut(kind, up), field);
    }
  }

  /** No field outside the list moves at all exactly when every shared field is as it is written. */
  lemma NothingMovesExactly(kind: ObjectKind, from: VersionNumber, to: VersionNumber, f: Fields)
    requires Bridged(kind, from, to, Object(f)).Ok?
    ensures Bridged(kind, from, to, Object(f)).value.value.Object?
    ensures (forall n :: n !in DivergentFields(kind)
                         ==> Get(Bridged(kind, from, to, Object(f)).value.value.fields, n) == Get(f, n))
            <==> from == to || TidyMembers(SharedFields(kind), f)
  {
    SharedApart(kind);
    hide DivergentFields, SharedFields, Rewritten, BridgedOne, BridgedPage;
    if from != to {
      BridgedCanBeRead(kind, from, to, f, Object(map[]));
    }
    hide Bridged;
    forall n | n !in DivergentFields(kind)
      ensures Get(Bridged(kind, from, to, Object(f)).value.value.fields, n) == Get(f, n)
              <==> from == to || (n in SharedFields(kind) && n in f ==> TidyMember(SharedFields(kind)[n], f[n]))
    {
      OutsideListNothingMoves(kind, from, to, f, n);
    }
  }

  // ---------------------------------------------------------------------------------------
  // Why the list is needed
  // ---------------------------------------------------------------------------------------

  /**
   * A patch of a field that only 2.3.0 has never commutes with the way down, whatever it writes:
   * bridged afterwards the field is gone, bridged before it reaches a version that lacks it.
   */
  lemma NewFieldNeverCommutes(kind: ObjectKind, f: Fields, field: string, value: Json)
    requires Bridged(kind, V2_3_0, V2_2_1, Object(f)).Ok? && !value.Null?
    requires field in NewFields(kind) && field !in OldFields(kind)
    ensures var patch := Object(map[field := value]);
            var patched := Merge(Some(Bridged(kind, V2_3_0, V2_2_1, Object(f)).value.value), patch);
            var after := Bridged(kind, V2_3_0, V2_2_1, Merge(Some(Object(f)), patch));
            && patched.Object? && field in patched.fields
            && (after.Ok? ==> after.value.value.Object? && field !in after.value.value.fields)
  {
    hide Crossed, BridgedOne, BridgedPage, OldFields, NewFields, SharedFields;
    var patch := Object(map[field := value]);
    var doc := Bridged(kind, V2_3_0, V2_2_1, Object(f)).value.value;
    assert Merge(Some(Object(f)), patch) == Object(MergeFields(f, patch));
    DownLacksNewFields(kind, f, field);
    DownLacksNewFields(kind, MergeFields(f, patch), field);
    MergedMember(doc.fields, patch, field);
  }

  lemma DownLacksNewFields(kind: ObjectKind, f: Fields, field: string)
    requires field in NewFields(kind) && field !in OldFields(kind)
    ensures var crossed := Bridged(kind, V2_3_0, V2_2_1, Object(f));
            crossed.Ok? ==> crossed.value.value.Object? && field !in crossed.value.value.fields
  {
    hide Crossed, BridgedOne, BridgedPage, OldFields, NewFields, SharedFields, Rewritten;
    BridgedObject(kind, V2_3_0, V2_2_1, f);
    if Crossed(kind, false, Object(f)).Some? {
      var own, lossy := CrossedRewrites(kind, false, f, f);
      WrittenOnly(SharedFields(kind), f - NewFields(kind));
    }
  }

  lemma WrittenOnly(fields: map<string, Field>, f: Fields)
    requires RewrittenFields(fields, f).Some?
    ensures RewrittenFields(fields, f).value.Keys <= f.Keys
  {
    hide Rewritten;
  }

  /** So for the capabilities of a connector: the bridge accepts the patched document, and reports them. */
  lemma DivergentPatchDoesNotCommute(f: Fields, items: seq<Json>)
    requires Bridged(Connector, V2_3_0, V2_2_1, Object(f)).Ok? && items != []
    ensures var patch := Object(map["capabilities" := Array(items)]);
            var before := Bridged(Connector, V2_3_0, V2_2_1, Object(f)).value;
            var after := Bridged(Connector, V2_3_0, V2_2_1, Merge(Some(Object(f)), patch));
            after.Ok? && after.value.value != Merge(Some(before.value), patch) && after.value.lossy == ["/capabilities"]
  {
    CapabilitiesAreNew();
    hide SharedFields, OldFields;
    NewFieldNeverCommutes(Connector, f, "capabilities", Array(items));
    var patch := Object(map["capabilities" := Array(items)]);
    var g := MergeFields(f, patch);
    assert Merge(Some(Object(f)), patch) == Object(g);
    MergedMember(f, patch, "capabilities");
    forall k
      ensures Get(g - NewFields(Connector), k) == Get(f - NewFields(Connector), k)
    {
      MergedMember(f, patch, k);
    }
    SameMembers(g - NewFields(Connector), f - NewFields(Connector));
  }

  lemma CapabilitiesAreNew()
    ensures "capabilities" in NewFields(Connector) && "capabilities" !in OldFields(Connector)
  {
  }
}
