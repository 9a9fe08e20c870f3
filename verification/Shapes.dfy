/**
 * How a typed object is read from a JSON document and written again: an optional field that is
 * null or absent and a list field that is empty or absent are left out, every other documented
 * field is written from what was read of it, and undocumented members are kept as they are.
 */
module Shapes {
  import opened Wrappers
  import opened Json

  /** Whether a field must be there, may be absent or null, or is a list that may be absent. */
  datatype Presence = Required | Nullable | Listed

  /** What is read: a plain value, a list, or an object with documented fields. */
  datatype Shape = Leaf | Many(item: Shape) | Record(fields: map<string, Field>)

  datatype Field = Field(presence: Presence, shape: Shape)

  /** What becomes of one documented field. */
  datatype Outcome = Unreadable | LeftOut | Written(value: Json)

  /** What is written of a document of the given shape, if it can be read. */
  function Rewritten(shape: Shape, doc: Json): Option<Json>
    decreases doc, 2
  {
    match shape
    case Leaf => if doc.Null? || doc.Array? || doc.Object? then None else Some(doc)
    case Many(item) =>
      if doc.Array? && forall i :: 0 <= i < |doc.items| ==> Rewritten(item, doc.items[i]).Some?
      then Some(Array(seq(|doc.items|, i requires 0 <= i < |doc.items| && Rewritten(item, doc.items[i]).Some? =>
                  Rewritten(item, doc.items[i]).value)))
      else None
    case Record(fields) =>
      if !doc.Object? then None
      else
        var r := RewrittenFields(fields, doc.fields);
        if r.None? then None else Some(Object(r.value))
  }

  /** What is written of the members of an object. */
  function RewrittenFields(fields: map<string, Field>, f: Fields): Option<Fields>
    decreases Object(f), 1
  {
    if exists k :: k in fields && ReadField(fields[k], f, k).Unreadable? then None
    else
      Some(map k | k in f && (k in fields ==> ReadField(fields[k], f, k).Written?) ::
             if k in fields then ReadField(fields[k], f, k).value else f[k])
  }

  /** What becomes of the field named `k`. */
  function ReadField(field: Field, f: Fields, k: string): Outcome
    decreases Object(f), 0
  {
    if k !in f then (if field.presence.Required? then Unreadable else LeftOut)
    else if f[k].Null? then (if field.presence.Nullable? then LeftOut else Unreadable)
    else
      var member := Object(f).fields[k];
      match Rewritten(field.shape, member)
      case None => Unreadable
      case Some(v) => if field.presence.Listed? && v == Array([]) then LeftOut else Written(v)
  }

  /** What is written is an object or a list exactly when what was read is, and never null. */
  lemma WrittenKind(shape: Shape, doc: Json)
    requires Rewritten(shape, doc).Some?
    ensures var v := Rewritten(shape, doc).value;
            && !v.Null? && (v.Object? <==> doc.Object?) && (v.Array? <==> doc.Array?)
            && (v.Array? ==> |v.items| == |doc.items|)
  {
    hide RewrittenFields;
  }

  /** Undocumented members are kept as they are, and no member appears. */
  lemma WrittenMembers(fields: map<string, Field>, f: Fields, k: string)
    requires RewrittenFields(fields, f).Some?
    ensures var g := RewrittenFields(fields, f).value;
            if k !in fields then Get(g, k) == Get(f, k)
            else match ReadField(fields[k], f, k)
                 case Unreadable => false
                 case LeftOut => k !in g && !fields[k].presence.Required?
                 case Written(v) => k in f && Get(g, k) == Some(v)
  {
    hide Rewritten;
  }

  /** Undocumented members can be put under the others before or after these are written. */
  lemma RewrittenBeside(fields: map<string, Field>, own: Fields, f: Fields)
    requires own.Keys !! fields.Keys
    ensures RewrittenFields(fields, own + f)
            == var r := RewrittenFields(fields, f); if r.None? then None else Some(own + r.value)
  {
    hide Rewritten;
    forall k | k in fields
      ensures ReadField(fields[k], own + f, k) == ReadField(fields[k], f, k)
    {
    }
    hide ReadField;
    if RewrittenFields(fields, f).Some? {
      var (a, r) := (RewrittenFields(fields, own + f).value, RewrittenFields(fields, f).value);
      forall k
        ensures Get(a, k) == Get(own + r, k)
      {
        WrittenMembers(fields, f, k);
        WrittenMembers(fields, own + f, k);
      }
      SameMembers(a, own + r);
    }
  }

  // ---------------------------------------------------------------------------------------
  // Writing what was written
  // ---------------------------------------------------------------------------------------

  /** What was written is read and written as it is. */
  lemma {:induction false} RewrittenTwice(shape: Shape, doc: Json)
    requires Rewritten(shape, doc).Some?
    ensures Rewritten(shape, Rewritten(shape, doc).value) == Rewritten(shape, doc)
    decreases doc, 2
  {
    match shape
    case Leaf =>
    case Many(item) =>
      var v := Rewritten(shape, doc).value;
      forall i | 0 <= i < |doc.items|
        ensures Rewritten(item, v.items[i]) == Some(v.items[i])
      {
        RewrittenTwice(item, doc.items[i]);
      }
      assert Rewritten(shape, v).value.items == v.items;
    case Record(fields) =>
      FieldsTwice(fields, doc.fields);
  }

  lemma {:induction false} FieldsTwice(fields: map<string, Field>, f: Fields)
    requires RewrittenFields(fields, f).Some?
    ensures RewrittenFields(fields, RewrittenFields(fields, f).value) == RewrittenFields(fields, f)
    decreases Object(f), 1
  {
    var g := RewrittenFields(fields, f).value;
    forall k | k in fields
      ensures ReadField(fields[k], g, k) == ReadField(fields[k], f, k)
    {
      WrittenMembers(fields, f, k);
      if ReadField(fields[k], f, k).Written? {
        var member := Object(f).fields[k];
        RewrittenTwice(fields[k].shape, member);
        WrittenKind(fields[k].shape, member);
      }
    }
    SameReading(fields, f, g);
  }

  /** Members that read alike, in documents alike in what is undocumented, are written alike. */
  lemma SameReading(fields: map<string, Field>, f: Fields, g: Fields)
    requires forall k :: k in fields ==> ReadField(fields[k], g, k) == ReadField(fields[k], f, k)
    requires forall k :: k !in fields ==> Get(g, k) == Get(f, k)
    ensures RewrittenFields(fields, g) == RewrittenFields(fields, f)
  {
    hide ReadField, Rewritten;
    if RewrittenFields(fields, f).Some? {
      var (a, b) := (RewrittenFields(fields, f).value, RewrittenFields(fields, g).value);
      forall k
        ensures Get(a, k) == Get(b, k)
      {
        WrittenMembers(fields, f, k);
        WrittenMembers(fields, g, k);
      }
      SameMembers(a, b);
    }
  }

  // ---------------------------------------------------------------------------------------
  // Patching what was written
  // ---------------------------------------------------------------------------------------

  /** Patching what was written of a document is as good as patching the document. */
  lemma {:induction false} PatchRewritten(shape: Shape, doc: Json, patch: Json)
    requires Rewritten(shape, doc).Some?
    ensures Rewritten(shape, Merge(Some(Rewritten(shape, doc).value), patch))
            == Rewritten(shape, Merge(Some(doc), patch))
    decreases patch, 2
  {
    WrittenKind(shape, doc);
    if patch.Object? && shape.Record? {
      PatchRewrittenFields(shape.fields, doc.fields, patch);
    }
  }

  lemma {:induction false} PatchRewrittenFields(fields: map<string, Field>, f: Fields, patch: Json)
    requires patch.Object? && RewrittenFields(fields, f).Some?
    ensures RewrittenFields(fields, MergeFields(RewrittenFields(fields, f).value, patch))
            == RewrittenFields(fields, MergeFields(f, patch))
    decreases patch, 1
  {
    var g := RewrittenFields(fields, f).value;
    var (a, b) := (MergeFields(f, patch), MergeFields(g, patch));
    forall k | k in fields
      ensures ReadField(fields[k], b, k) == ReadField(fields[k], a, k)
    {
      PatchRewrittenField(fields, f, patch, k);
    }
    forall k | k !in fields
      ensures Get(b, k) == Get(a, k)
    {
      WrittenMembers(fields, f, k);
      MergedMember(f, patch, k);
      MergedMember(g, patch, k);
    }
    SameReading(fields, a, b);
  }

  /** What a patch makes of one member. */
  lemma MergedMember(f: Fields, patch: Json, k: string)
    requires patch.Object?
    ensures Get(MergeFields(f, patch), k)
            == if k !in patch.fields then Get(f, k)
               else if patch.fields[k].Null? then None
               else Some(Merge(Get(f, k), patch.fields[k]))
  {
    hide Merge;
  }

  lemma {:induction false} PatchRewrittenField(fields: map<string, Field>, f: Fields, patch: Json, k: string)
    requires patch.Object? && RewrittenFields(fields, f).Some? && k in fields
    ensures var g := RewrittenFields(fields, f).value;
            ReadField(fields[k], MergeFields(g, patch), k) == ReadField(fields[k], MergeFields(f, patch), k)
    decreases patch, 0
  {
    var g := RewrittenFields(fields, f).value;
    WrittenMembers(fields, f, k);
    MergedMember(f, patch, k);
    MergedMember(g, patch, k);
    hide MergeFields, RewrittenFields;
    if k !in patch.fields {
      if k in f {
        var member := Object(f).fields[k];
        if ReadField(fields[k], f, k).Written? {
          RewrittenTwice(fields[k].shape, member);
          WrittenKind(fields[k].shape, member);
        }
      }
    } else if !patch.fields[k].Null? {
      if ReadField(fields[k], f, k).Written? {
        PatchRewritten(fields[k].shape, f[k], patch.fields[k]);
      } else if k in f {
        NothingToMergeInto(fields[k], f, k, patch.fields[k]);
      }
      SameMember(fields[k], MergeFields(g, patch), MergeFields(f, patch), k);
    }
  }

  /** A field that is left out has no members to merge into. */
  lemma NothingToMergeInto(field: Field, f: Fields, k: string, patch: Json)
    requires k in f && ReadField(field, f, k).LeftOut?
    ensures Merge(Some(f[k]), patch) == Merge(None, patch)
  {
    if !f[k].Null? {
      WrittenKind(field.shape, f[k]);
    }
    assert FieldsOf(Some(f[k])) == FieldsOf(None);
  }

  lemma SameMember(field: Field, f: Fields, g: Fields, k: string)
    requires k in f && k in g && (f[k].Null? <==> g[k].Null?)
    requires Rewritten(field.shape, f[k]) == Rewritten(field.shape, g[k])
    ensures ReadField(field, f, k) == ReadField(field, g, k)
  {
    hide Rewritten;
  }

  // ---------------------------------------------------------------------------------------
  // Patches that leave nothing to rewrite
  // ---------------------------------------------------------------------------------------

  /** A document that is written as it was read. */
  predicate Tidy(shape: Shape, doc: Json) {
    Rewritten(shape, doc) == Some(doc)
  }

  /** A member that is neither left out nor changed when it is written. */
  predicate TidyMember(field: Field, value: Json) {
    !value.Null? && Tidy(field.shape, value) && !(field.presence.Listed? && value == Array([]))
  }

  predicate TidyMembers(fields: map<string, Field>, f: Fields) {
    forall k :: k in fields && k in f ==> TidyMember(fields[k], f[k])
  }

  /** An object that can be read is written as it is exactly when each of its documented members is. */
  lemma TidyObject(fields: map<string, Field>, f: Fields)
    requires RewrittenFields(fields, f).Some?
    ensures RewrittenFields(fields, f) == Some(f) <==> TidyMembers(fields, f)
  {
    hide Rewritten;
    var g := RewrittenFields(fields, f).value;
    forall k
      ensures Get(g, k) == Get(f, k) <==> (k in fields && k in f ==> TidyMember(fields[k], f[k]))
    {
      WrittenMembers(fields, f, k);
    }
    if TidyMembers(fields, f) {
      SameMembers(g, f);
    }
  }

  /** A patch whose own values are tidy, at every depth; it may null any field. */
  predicate WritesTidily(shape: Shape, patch: Json)
    decreases patch
  {
    if !patch.Object? then Tidy(shape, patch)
    else shape.Record?
         && forall k :: k in shape.fields && k in patch.fields && !patch.fields[k].Null? ==>
              WritesTidily(shape.fields[k].shape, patch.fields[k])
              && !(shape.fields[k].presence.Listed? && patch.fields[k] == Array([]))
  }

  /** A tidy document stays tidy under a patch it can be read after exactly when the patch writes tidily. */
  lemma {:induction false} PatchStaysTidy(shape: Shape, target: Option<Json>, patch: Json)
    requires shape.Record? ==> TidyMembers(shape.fields, FieldsOf(target))
    requires Rewritten(shape, Merge(target, patch)).Some?
    ensures Tidy(shape, Merge(target, patch)) <==> WritesTidily(shape, patch)
    decreases patch
  {
    if patch.Object? {
      var (fields, f) := (shape.fields, FieldsOf(target));
      var m := MergeFields(f, patch);
      TidyObject(fields, m);
      forall k | k in fields && k in patch.fields && !patch.fields[k].Null?
        ensures k in m
        ensures TidyMember(fields[k], m[k])
                <==> WritesTidily(fields[k].shape, patch.fields[k])
                     && !(fields[k].presence.Listed? && patch.fields[k] == Array([]))
      {
        PatchedMemberStaysTidy(fields, f, patch, k);
        PatchStaysTidy(fields[k].shape, Get(f, k), patch.fields[k]);
      }
      forall k | k in fields && k in m && k !in patch.fields
        ensures TidyMember(fields[k], m[k])
      {
        MergedMember(f, patch, k);
      }
    }
  }

  /** What a patch writes over a tidy member can be read, and what it writes over is tidy. */
  lemma PatchedMemberStaysTidy(fields: map<string, Field>, f: Fields, patch: Json, k: string)
    requires patch.Object? && TidyMembers(fields, f) && RewrittenFields(fields, MergeFields(f, patch)).Some?
    requires k in fields && k in patch.fields && !patch.fields[k].Null?
    ensures k in MergeFields(f, patch) && MergeFields(f, patch)[k] == Merge(Get(f, k), patch.fields[k])
    ensures !MergeFields(f, patch)[k].Null?
    ensures Rewritten(fields[k].shape, Merge(Get(f, k), patch.fields[k])).Some?
    ensures fields[k].shape.Record? ==> TidyMembers(fields[k].shape.fields, FieldsOf(Get(f, k)))
  {
    MergedMember(f, patch, k);
    WrittenMembers(fields, MergeFields(f, patch), k);
    if fields[k].shape.Record? && k in f {
      TidyObject(fields[k].shape.fields, f[k].fields);
    }
  }

  /** A tidy document stays tidy without a field that need not be there. */
  lemma WithoutField(fields: map<string, Field>, f: Fields, name: string)
    requires RewrittenFields(fields, f) == Some(f) && name in fields && !fields[name].presence.Required?
    ensures RewrittenFields(fields, f - {name}) == Some(f - {name})
  {
    TidyObject(fields, f);
    forall k | k in fields
      ensures !ReadField(fields[k], f - {name}, k).Unreadable?
    {
      WrittenMembers(fields, f, k);
    }
    hide ReadField;
    TidyObject(fields, f - {name});
  }

  /** A tidy document with one of its lists emptied is written without that list. */
  lemma EmptiedList(fields: map<string, Field>, f: Fields, name: string)
    requires RewrittenFields(fields, f) == Some(f)
    requires name in fields && fields[name].presence.Listed? && fields[name].shape.Many?
    ensures var m := MergeFields(f, Object(map[name := Array([])]));
            name in m && RewrittenFields(fields, m) == Some(m - {name})
  {
    var patch := Object(map[name := Array([])]);
    var m := MergeFields(f, patch);
    forall k
      ensures Get(m, k) == if k == name then Some(Array([])) else Get(f, k)
    {
      MergedMember(f, patch, k);
    }
    hide MergeFields, RewrittenFields;
    WithoutField(fields, f, name);
    assert Get(m, name) == Some(Array([]));
    NothingListed(fields[name].shape.item);
    SameButOne(fields, f, m, name);
  }

  lemma NothingListed(item: Shape)
    ensures Rewritten(Many(item), Array([])) == Some(Array([]))
  {
    assert Rewritten(Many(item), Array([])).value.items == [];
  }

  lemma SameElsewhere(f: Fields, m: Fields, name: string)
    requires forall k :: k != name ==> Get(m, k) == Get(f, k)
    ensures m - {name} == f - {name}
  {
    forall k
      ensures Get(m - {name}, k) == Get(f - {name}, k)
    {
      assert k != name ==> Get(m, k) == Get(f, k);
    }
    SameMembers(m - {name}, f - {name});
  }

  /** A document that differs from another by a field that is left out is written like the other without it. */
  lemma SameButOne(fields: map<string, Field>, f: Fields, m: Fields, name: string)
    requires forall k :: k != name ==> Get(m, k) == Get(f, k)
    requires name in fields && !fields[name].presence.Required? && ReadField(fields[name], m, name).LeftOut?
    ensures m - {name} == f - {name}
    ensures RewrittenFields(fields, m) == RewrittenFields(fields, f - {name})
  {
    hide Rewritten, RewrittenFields;
    var g := f - {name};
    SameElsewhere(f, m, name);
    forall k | k in fields
      ensures ReadField(fields[k], m, k) == ReadField(fields[k], g, k)
    {
      assert k != name ==> Get(m, k) == Get(f, k);
    }
    SameReading(fields, g, m);
  }
}
