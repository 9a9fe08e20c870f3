/** JSON documents, merge patches (RFC 7396 section 2) and JSON Pointers (RFC 6901 section 4). */
module Json {
  import opened Wrappers
  import opened Text

  datatype Json =
    | Null
    | Boolean(b: bool)
    | Number(n: real)
    | Str(s: string)
    | Array(items: seq<Json>)
    | Object(fields: map<string, Json>)

  type Fields = map<string, Json>

  // ---------------------------------------------------------------------------------------
  // Merge patches
  // ---------------------------------------------------------------------------------------

  /** The members of a document, or none when it is not an object. */
  function FieldsOf(target: Option<Json>): Fields {
    if target.Some? && target.value.Object? then target.value.fields else map[]
  }

  function Get(m: Fields, k: string): Option<Json> {
    if k in m then Some(m[k]) else None
  }

  /** Members that agree under every name are the same. */
  lemma SameMembers(a: Fields, b: Fields)
    requires forall k :: Get(a, k) == Get(b, k)
    ensures a == b
  {
    assert forall k :: k in a <==> Get(a, k).Some?;
    assert forall k :: k in b <==> Get(b, k).Some?;
  }

  /** Applies a merge patch to a document, or to nothing. */
  function Merge(target: Option<Json>, patch: Json): Json
    decreases patch, 1
  {
    if !patch.Object? then patch else Object(MergeFields(FieldsOf(target), patch))
  }

  /** Applies the members of a merge patch: `null` removes, anything else is merged in. */
  function MergeFields(target: Fields, patch: Json): Fields
    requires patch.Object?
    decreases patch, 0
  {
    map k | k in target.Keys + patch.fields.Keys && !(k in patch.fields && patch.fields[k].Null?) ::
      if k in patch.fields then Merge(Get(target, k), patch.fields[k]) else target[k]
  }

  /** The members of `m` whose names are not in `names`. */
  function Without(m: Fields, names: set<string>): Fields {
    m - names
  }

  /** A patch that writes none of `names` acts on the other members alone. */
  lemma MergeOutside(target: Fields, patch: Json, names: set<string>)
    requires patch.Object? && patch.fields.Keys !! names
    ensures Without(MergeFields(target, patch), names) == MergeFields(Without(target, names), patch)
    ensures forall k :: k in names ==> Get(MergeFields(target, patch), k) == Get(target, k)
  {
  }

  /** Members can be put under the others before or after a patch that writes none of them. */
  lemma MergeBeside(own: Fields, rest: Fields, patch: Json)
    requires patch.Object? && patch.fields.Keys !! own.Keys
    ensures MergeFields(own + rest, patch) == own + MergeFields(rest, patch)
  {
  }

  // ---------------------------------------------------------------------------------------
  // What a merge patch does, at any depth
  // ---------------------------------------------------------------------------------------

  /** The value under a path of member names. */
  function At(doc: Option<Json>, path: seq<string>): Option<Json>
    decreases |path|
  {
    if doc.None? || path == [] then doc
    else if !doc.value.Object? then None
    else At(Get(doc.value.fields, path[0]), path[1..])
  }

  /** What a patch says at a path: nothing, to remove what is there, or a value. */
  datatype Change = Untouched | Removed | Replaced(value: Json)

  /** What `patch` says at `path`. A value that is no object, written above it, leaves nothing below. */
  function ChangeAt(patch: Json, path: seq<string>): Change {
    if path == [] then Replaced(patch)
    else if !patch.Object? then Removed
    else if path[0] !in patch.fields then Untouched
    else if patch.fields[path[0]].Null? then Removed
    else ChangeAt(patch.fields[path[0]], path[1..])
  }

  /**
   * At every depth a merge patch leaves what it does not mention, removes what it says to, and
   * writes the values it gives.
   */
  lemma {:induction false} MergedAt(target: Option<Json>, patch: Json, path: seq<string>)
    ensures var (change, after) := (ChangeAt(patch, path), At(Some(Merge(target, patch)), path));
            && (change.Untouched? ==> after == At(target, path))
            && (change.Removed? ==> after.None?)
            && (change.Replaced? && !change.value.Object? ==> after == Some(change.value))
    decreases path
  {
    if path != [] && patch.Object? && path[0] in patch.fields && !patch.fields[path[0]].Null? {
      MergedAt(Get(FieldsOf(target), path[0]), patch.fields[path[0]], path[1..]);
    }
  }

  /** Applying a merge patch once more changes nothing. */
  lemma {:induction false} MergedTwice(target: Option<Json>, patch: Json)
    ensures Merge(Some(Merge(target, patch)), patch) == Merge(target, patch)
    decreases patch
  {
    if patch.Object? {
      var once := MergeFields(FieldsOf(target), patch);
      forall k | k in patch.fields && !patch.fields[k].Null?
        ensures Merge(Get(once, k), patch.fields[k]) == once[k]
      {
        MergedTwice(Get(FieldsOf(target), k), patch.fields[k]);
      }
      assert MergeFields(once, patch) == once;
    }
  }

  // ---------------------------------------------------------------------------------------
  // Pointers
  // ---------------------------------------------------------------------------------------

  /** The part of a pointer before its next `/`, with `~1` and `~0` read as `/` and `~`. */
  function Unescape(token: string): string {
    if token == "" then ""
    else if |token| >= 2 && token[0] == '~' && token[1] == '1' then "/" + Unescape(token[2..])
    else if |token| >= 2 && token[0] == '~' && token[1] == '0' then "~" + Unescape(token[2..])
    else [token[0]] + Unescape(token[1..])
  }

  /** The length of the reference token at the start of `p`. */
  function TokenLength(p: string): (n: nat)
    ensures n <= |p|
    ensures n < |p| ==> p[n] == '/'
    ensures '/' !in p[..n]
  {
    if p == "" || p[0] == '/' then 0
    else
      var n := TokenLength(p[1..]);
      assert p[..1 + n] == [p[0]] + p[1..][..n];
      1 + n
  }

  /** The member or item of a document that one reference token names. */
  function Child(doc: Json, token: string): Option<Json> {
    match doc
    case Object(fields) => Get(fields, Unescape(token))
    case Array(items) =>
      if IsNumeral(token) && Numeral(ValueOf(token)) == token && ValueOf(token) < |items|
      then Some(items[ValueOf(token)])
      else None
    case _ => None
  }

  /** The part of `doc` that a pointer names, if there is one. */
  function Resolve(doc: Json, pointer: string): Option<Json>
    decreases |pointer|
  {
    if pointer == "" then Some(doc)
    else if pointer[0] != '/' then None
    else
      var n := TokenLength(pointer[1..]);
      match Child(doc, pointer[1..1 + n])
      case None => None
      case Some(child) => Resolve(child, pointer[1 + n..])
  }

  predicate PlainToken(token: string) {
    '/' !in token && '~' !in token
  }

  lemma {:induction false} UnescapePlain(token: string)
    requires PlainToken(token)
    ensures Unescape(token) == token
  {
    if token == "" {
    } else {
      assert token[0] in token;
      UnescapePlain(token[1..]);
    }
  }

  lemma {:induction false} TokenLengthPlain(token: string, rest: string)
    requires '/' !in token && (rest == "" || rest[0] == '/')
    ensures TokenLength(token + rest) == |token|
  {
    if token != "" {
      assert token[0] in token;
      assert (token + rest)[1..] == token[1..] + rest;
      TokenLengthPlain(token[1..], rest);
    } else {
      assert token + rest == rest;
    }
  }

  /** Resolving a pointer that starts with a plain token steps into that child. */
  lemma ResolveStep(doc: Json, token: string, rest: string)
    requires PlainToken(token) && (rest == "" || rest[0] == '/')
    ensures var child := Child(doc, token);
            Resolve(doc, "/" + token + rest) == if child.None? then None else Resolve(child.value, rest)
  {
    var p := "/" + token + rest;
    TokenLengthPlain(token, rest);
    assert p[1..] == token + rest;
    assert p[1..1 + |token|] == token && p[1 + |token|..] == rest;
  }

  /** Resolving steps into the item a numeral names. */
  lemma ResolveItem(items: seq<Json>, i: nat, rest: string)
    requires i < |items| && (rest == "" || rest[0] == '/')
    ensures Resolve(Array(items), "/" + Numeral(i) + rest) == Resolve(items[i], rest)
  {
    NumeralValue(i);
    NumeralIsPlain(i);
    ResolveStep(Array(items), Numeral(i), rest);
  }

  lemma NumeralIsPlain(i: nat)
    ensures PlainToken(Numeral(i))
  {
    forall c | c in Numeral(i)
      ensures c != '/' && c != '~'
    {
      var k :| 0 <= k < |Numeral(i)| && Numeral(i)[k] == c;
      assert IsDigit(Numeral(i)[k]);
    }
  }
}
