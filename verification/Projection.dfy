/**
The code-generation projection: the strict contract it accepts, the one place it changes, and what
the projected schema still says about a command's termination.
*/
module CodegenProjection {
  import opened Core
  import opened JsonMergePatch

  const VARIANTS: seq<Text> := [Exited, Signaled, TimedOut, OutputLimitExceeded]

  function VariantRef(kind: Text): Text { SchemaRef(ExecTerminationOf(kind)) }

  const STRICT_TERMINATION: Json := Obj(map[
    OneOf := Arr([
      Obj(map[Ref := Str(VariantRef(Exited))]), Obj(map[Ref := Str(VariantRef(Signaled))]),
      Obj(map[Ref := Str(VariantRef(TimedOut))]), Obj(map[Ref := Str(VariantRef(OutputLimitExceeded))])]),
    Discriminator := Obj(map[
      PropertyName := Str(Kind),
      Mapping := Obj(map kind | kind in VARIANTS :: Str(VariantRef(kind)))])])

  const INT32: map<Text, Json> := map[Type := Str(Integer), Format := Str(Int32)]

  const PROJECTED_TERMINATION: Json := Obj(map[
    Type := Str(Object), AdditionalProperties := Bool(false), Required := Arr([Str(Kind)]),
    Properties := Obj(map[
      Kind := Obj(map[Type := Str(String),
                      Enum := Arr([Str(Exited), Str(Signaled), Str(TimedOut), Str(OutputLimitExceeded)])]),
      ExitCode := Obj(INT32[Description := Str(Other("Present only when kind is exited."))]),
      Signal := Obj(INT32[Description := Str(Other("Present only when kind is signaled."))])]),
    Description := Str(Other("Code-generation projection of the strict command-termination union."))])

  function Wrap(termination: Json): Json {
    Obj(map[Components := Obj(map[Schemas := Obj(map[ExecTermination := termination])])])
  }

  const OVERLAY: Json := Wrap(Obj(PROJECTED_TERMINATION.fields[OneOf := Null][Discriminator := Null]))

  // --------------------------------------------------------------------------- the strict contract

  function KindProperty(kind: Text): Json { Obj(map[Type := Str(String), Enum := Arr([Str(kind)])]) }

  /** The member that a variant demands beside its kind. */
  function Detail(kind: Text): Option<Text> {
    if kind.Exited? then Some(ExitCode) else if kind.Signaled? then Some(Signal) else None
  }

  function VariantRequired(kind: Text): seq<Json> {
    [Str(Kind)] + if Detail(kind).Some? then [Str(Detail(kind).value)] else []
  }

  function VariantProperties(kind: Text): map<Text, Json> {
    if Detail(kind).Some? then map[Kind := KindProperty(kind), Detail(kind).value := Obj(INT32)]
    else map[Kind := KindProperty(kind)]
  }

  function VariantShape(kind: Text): Json {
    Obj(map[
      Type := Str(Object), AdditionalProperties := Bool(false), Required := Arr(VariantRequired(kind)),
      Properties := Obj(VariantProperties(kind))])
  }

  /** `components.schemas`, if the document has it. */
  function SchemasOf(document: Json): Option<map<Text, Json>> {
    match At(document, [Components, Schemas])
    case Some(Obj(fields)) => Some(fields)
    case _ => None
  }

  predicate Strict(document: Json) {
    && SchemasOf(document).Some?
    && var schemas := SchemasOf(document).value;
      && Get(schemas, ExecTermination) == STRICT_TERMINATION
      && forall kind | kind in VARIANTS :: Get(schemas, ExecTerminationOf(kind)) == VariantShape(kind)
  }

  datatype Drift = NoSchemas | UnionDrifted | VariantDrifted(kind: Text) | OverlayDrifted | Unexpected

  method ValidateStrictContract(document: Json) returns (error: Option<Drift>)
    ensures error.None? <==> Strict(document)
    ensures error != Some(Unexpected)
  {
    var schemas := SchemasOf(document);
    if schemas.None? {
      return Some(NoSchemas);
    }
    if Get(schemas.value, ExecTermination) != STRICT_TERMINATION {
      return Some(UnionDrifted);
    }
    for i := 0 to |VARIANTS|
      invariant forall kind | kind in VARIANTS[..i] :: Get(schemas.value, ExecTerminationOf(kind)) == VariantShape(kind)
    {
      if Get(schemas.value, ExecTerminationOf(VARIANTS[i])) != VariantShape(VARIANTS[i]) {
        return Some(VariantDrifted(VARIANTS[i]));
      }
      assert VARIANTS[..i + 1] == VARIANTS[..i] + [VARIANTS[i]];
    }
    assert VARIANTS[..|VARIANTS|] == VARIANTS;
    return None;
  }

  // --------------------------------------------------------------------------------- the projection

  /** The document with another schema for `ExecTermination`. */
  function WithTermination(document: Json, termination: Json): Json
    requires SchemasOf(document).Some?
  {
    var components := document.fields[Components].fields;
    Obj(document.fields[Components :=
      Obj(components[Schemas := Obj(components[Schemas].fields[ExecTermination := termination])])])
  }

  /** Where the patch drops all the target's members and adds null-free ones, the latter are the result. */
  lemma MergeReplaces(target: Json, added: map<Text, Json>)
    requires target.Obj? && target.fields.Keys == {OneOf, Discriminator} && NoNullMembers(Obj(added))
    requires OneOf !in added && Discriminator !in added
    ensures Merge(target, Obj(added[OneOf := Null][Discriminator := Null])) == Obj(added)
  {
    var patch := Obj(added[OneOf := Null][Discriminator := Null]);
    forall key | key in added ensures Merge(Get(target.fields, key), patch.fields[key]) == added[key] {
      MergeIntoNothing(Null, added[key]);
    }
    assert Merge(target, patch).fields == added;
  }

  lemma ProjectedNoNulls()
    ensures NoNullMembers(PROJECTED_TERMINATION)
  {
    var properties := PROJECTED_TERMINATION.fields[Properties];
    forall key | key in properties.fields ensures NoNullMembers(properties.fields[key]) && !properties.fields[key].Null? {
      assert forall k | k in properties.fields[key].fields :: !properties.fields[key].fields[k].Obj?;
    }
  }

  /** The overlay turns the strict union into the projected schema. */
  lemma TerminationMerged()
    ensures Merge(STRICT_TERMINATION, Obj(PROJECTED_TERMINATION.fields[OneOf := Null][Discriminator := Null]))
            == PROJECTED_TERMINATION
  {
    ProjectedNoNulls();
    MergeReplaces(STRICT_TERMINATION, PROJECTED_TERMINATION.fields);
  }

  lemma MergeMember(target: Json, patch: Json, key: Text)
    requires patch.Obj?
    ensures var merged := Merge(target, patch).fields;
      && (key in merged <==> if key in patch.fields then !patch.fields[key].Null? else key in Base(target))
      && (key in merged ==>
            merged[key] == if key in patch.fields then Merge(Get(Base(target), key), patch.fields[key])
                           else Base(target)[key])
  {}

  lemma MergeOneMember(target: Json, key: Text, value: Json)
    requires target.Obj? && !value.Null?
    ensures Merge(target, Obj(map[key := value])) == Obj(target.fields[key := Merge(Get(target.fields, key), value)])
  {
    var merged := Merge(target, Obj(map[key := value])).fields;
    var expected := target.fields[key := Merge(Get(target.fields, key), value)];
    forall k ensures (k in merged <==> k in expected) && Get(merged, k) == Get(expected, k) {
      MergeMember(target, Obj(map[key := value]), k);
    }
    SameGets(merged, expected);
  }

  lemma WrapMerged(document: Json, patch: Json)
    requires SchemasOf(document).Some? && !patch.Null?
    ensures Merge(document, Wrap(patch))
            == WithTermination(document, Merge(Get(SchemasOf(document).value, ExecTermination), patch))
  {
    var components := document.fields[Components];
    MergeOneMember(components.fields[Schemas], ExecTermination, patch);
    MergeOneMember(components, Schemas, Obj(map[ExecTermination := patch]));
    MergeOneMember(document, Components, Obj(map[Schemas := Obj(map[ExecTermination := patch])]));
  }

  /** On a strict document the overlay changes the schema of `ExecTermination` and nothing else. */
  lemma OverlayMerged(document: Json)
    requires Strict(document)
    ensures Merge(document, OVERLAY) == WithTermination(document, PROJECTED_TERMINATION)
  {
    TerminationMerged();
    WrapMerged(document, Obj(PROJECTED_TERMINATION.fields[OneOf := Null][Discriminator := Null]));
  }

  const TERMINATION_PATH: seq<Text> := [Components, Schemas, ExecTermination]

  lemma TerminationReplaced(document: Json, termination: Json)
    requires SchemasOf(document).Some?
    ensures At(WithTermination(document, termination), TERMINATION_PATH) == Some(termination)
  {
    AtThree(WithTermination(document, termination), Components, Schemas, ExecTermination);
  }

  lemma AtThree(j: Json, a: Text, b: Text, c: Text)
    requires j.Obj? && a in j.fields && j.fields[a].Obj? && b in j.fields[a].fields
    requires j.fields[a].fields[b].Obj? && c in j.fields[a].fields[b].fields
    ensures At(j, [a, b, c]) == Some(j.fields[a].fields[b].fields[c])
  {
    var path := [a, b, c];
    assert path[1..] == [b, c] && [b, c][1..] == [c] && [c][1..] == [];
    assert At(j.fields[a].fields[b], [c]) == At(j.fields[a].fields[b].fields[c], [c][1..]);
    assert At(j.fields[a], [b, c]) == At(j.fields[a].fields[b], [b, c][1..]);
    assert At(j, path) == At(j.fields[a], path[1..]);
  }

  /** Accepts exactly the strict documents with the reviewed overlay; its final check never fires. */
  method ProjectDocument(document: Json, overlay: Json) returns (r: Result<Json, Drift>)
    ensures r.Ok? <==> Strict(document) && overlay == OVERLAY
    ensures r.Ok? ==> r.value == WithTermination(document, PROJECTED_TERMINATION)
    ensures r != Err(Unexpected)
  {
    var drifted := ValidateStrictContract(document);
    if drifted.Some? {
      return Err(drifted.value);
    }
    if overlay != OVERLAY {
      return Err(OverlayDrifted);
    }
    var projected := MergePatch(document, overlay);
    OverlayMerged(document);
    TerminationReplaced(document, PROJECTED_TERMINATION);
    if At(projected, TERMINATION_PATH) != Some(PROJECTED_TERMINATION) {
      return Err(Unexpected);
    }
    return Ok(projected);
  }

  /** Everything that is not the schema of `ExecTermination`, or holds it, reads as before. */
  lemma ProjectionFrame(document: Json, termination: Json, path: seq<Text>)
    requires SchemasOf(document).Some? && !(TERMINATION_PATH <= path) && !(path <= TERMINATION_PATH)
    ensures At(WithTermination(document, termination), path) == At(document, path)
  {
    var components := document.fields[Components].fields;
    var schemas := components[Schemas].fields;
    var newSchemas := Obj(schemas[ExecTermination := termination]);
    AtUpdated(document.fields, Components, Obj(components[Schemas := newSchemas]), path);
    if path[0] == Components {
      AtUpdated(components, Schemas, newSchemas, path[1..]);
      if path[1] == Schemas {
        assert path[1..][1..] == path[2..] && path[2] != ExecTermination;
        AtUpdated(schemas, ExecTermination, termination, path[2..]);
      }
    }
  }

  lemma AtUpdated(fields: map<Text, Json>, key: Text, value: Json, path: seq<Text>)
    requires path != []
    ensures At(Obj(fields[key := value]), path)
            == if path[0] == key then At(value, path[1..]) else At(Obj(fields), path)
  {}

  // ---------------------------------------------------------------------------- what the schemas say

  predicate HasType(v: Json, name: Json) {
    (name == Str(Object) ==> v.Obj?) && (name == Str(String) ==> v.Str?) && (name == Str(Integer) ==> v.Num?)
  }

  predicate InInt32(n: int) { -0x8000_0000 <= n < 0x8000_0000 }

  /** JSON Schema for the keywords in use. References are followed `depth` deep; `discriminator` and
      `description` say nothing about validity. */
  predicate Accepts(schemas: map<Text, Json>, schema: Json, v: Json, depth: nat)
    decreases depth, schema
  {
    && schema.Obj?
    && var s := schema.fields;
      && (Type in s ==> HasType(v, s[Type]))
      && (Enum in s ==> s[Enum].Arr? && v in s[Enum].items)
      && (Format in s && s[Format] == Str(Int32) && v.Num? ==> InInt32(v.n))
      && (Required in s && v.Obj? ==>
            s[Required].Arr? && forall key | key in s[Required].items :: key.Str? && key.text in v.fields)
      && (Properties in s && v.Obj? ==>
            && s[Properties].Obj?
            && (forall key | key in s[Properties].fields && key in v.fields ::
                  Accepts(schemas, s[Properties].fields[key], v.fields[key], depth))
            && (AdditionalProperties in s && s[AdditionalProperties] == Bool(false) ==>
                  v.fields.Keys <= s[Properties].fields.Keys))
      && (Ref in s ==>
            && depth > 0 && s[Ref].Str? && s[Ref].text.SchemaRef? && s[Ref].text.name in schemas
            && Accepts(schemas, schemas[s[Ref].text.name], v, depth - 1))
      && (OneOf in s ==>
            && s[OneOf].Arr?
            && exists i :: (0 <= i < |s[OneOf].items| && Accepts(schemas, s[OneOf].items[i], v, depth)
                 && forall j | 0 <= j < |s[OneOf].items| && j != i :: !Accepts(schemas, s[OneOf].items[j], v, depth)))
  }

  const KINDS: set<Json> := {Str(Exited), Str(Signaled), Str(TimedOut), Str(OutputLimitExceeded)}

  predicate IsDetail(v: Json) { v.Num? && InInt32(v.n) }

  function Details(kind: Text): set<Text> { if Detail(kind).Some? then {Detail(kind).value} else {} }

  /** `v` has a kind from `kinds`, and beside it only int32 details from `details`. */
  predicate Shaped(v: Json, kinds: set<Json>, details: set<Text>) {
    && v.Obj? && Kind in v.fields && v.fields[Kind] in kinds
    && v.fields.Keys <= {Kind} + details
    && (forall key | key in details && key in v.fields :: IsDetail(v.fields[key]))
  }

  /** A termination object of one kind, with exactly the detail of that kind. */
  predicate IsVariant(v: Json, kind: Text) {
    Shaped(v, {Str(kind)}, Details(kind)) && Details(kind) <= v.fields.Keys
  }

  predicate IsInt32(schema: Json) {
    && schema.Obj? && schema.fields.Keys <= {Type, Format, Description}
    && Get(schema.fields, Type) == Str(Integer) && Get(schema.fields, Format) == Str(Int32)
  }

  lemma Int32Means(schemas: map<Text, Json>, schema: Json, v: Json, depth: nat)
    requires IsInt32(schema)
    ensures Accepts(schemas, schema, v, depth) <==> IsDetail(v)
  {}

  lemma EnumMeans(schemas: map<Text, Json>, values: seq<Json>, v: Json, depth: nat)
    requires forall value | value in values :: value.Str?
    ensures Accepts(schemas, Obj(map[Type := Str(String), Enum := Arr(values)]), v, depth) <==> v in values
  {}

  /** The schema of an object with these properties and no others. */
  predicate IsClosedObject(schema: Json, required: seq<Json>, properties: map<Text, Json>) {
    && schema.Obj? && schema.fields.Keys <= {Type, AdditionalProperties, Required, Properties, Description}
    && Get(schema.fields, Type) == Str(Object) && Get(schema.fields, AdditionalProperties) == Bool(false)
    && Get(schema.fields, Required) == Arr(required) && Get(schema.fields, Properties) == Obj(properties)
  }

  predicate Fits(schemas: map<Text, Json>, required: seq<Json>, properties: map<Text, Json>, v: Json, depth: nat) {
    && v.Obj? && v.fields.Keys <= properties.Keys
    && (forall key | key in required :: key.Str? && key.text in v.fields)
    && (forall key | key in properties && key in v.fields :: Accepts(schemas, properties[key], v.fields[key], depth))
  }

  lemma ClosedObjectMeans(
      schemas: map<Text, Json>, schema: Json, required: seq<Json>, properties: map<Text, Json>, v: Json, depth: nat)
    requires IsClosedObject(schema, required, properties)
    ensures Accepts(schemas, schema, v, depth) <==> Fits(schemas, required, properties, v, depth)
  {}

  lemma RefMeans(schemas: map<Text, Json>, name: Text, v: Json, depth: nat)
    requires depth > 0 && name in schemas
    ensures Accepts(schemas, Obj(map[Ref := Str(SchemaRef(name))]), v, depth)
            <==> Accepts(schemas, schemas[name], v, depth - 1)
  {}

  lemma VariantClosed(kind: Text)
    ensures IsClosedObject(VariantShape(kind), VariantRequired(kind), VariantProperties(kind))
  {}

  lemma RequiredMeans(v: Json, kind: Text)
    requires v.Obj?
    ensures (forall key | key in VariantRequired(kind) :: key.Str? && key.text in v.fields)
            <==> Kind in v.fields && (Detail(kind).Some? ==> Detail(kind).value in v.fields)
  {
    assert Str(Kind) in VariantRequired(kind);
    assert Detail(kind).Some? ==> Str(Detail(kind).value) in VariantRequired(kind);
  }

  lemma PropertiesMean(schemas: map<Text, Json>, v: Json, kind: Text, depth: nat)
    requires v.Obj?
    ensures var properties := VariantProperties(kind);
      (forall key | key in properties && key in v.fields :: Accepts(schemas, properties[key], v.fields[key], depth))
      <==> (Kind in v.fields ==> v.fields[Kind] == Str(kind))
           && (Detail(kind).Some? && Detail(kind).value in v.fields ==> IsDetail(v.fields[Detail(kind).value]))
  {
    var properties := VariantProperties(kind);
    assert Kind in properties && properties[Kind] == KindProperty(kind);
    if Kind in v.fields {
      EnumMeans(schemas, [Str(kind)], v.fields[Kind], depth);
    }
    if Detail(kind).Some? && Detail(kind).value in v.fields {
      assert Detail(kind).value in properties && properties[Detail(kind).value] == Obj(INT32);
      Int32Means(schemas, Obj(INT32), v.fields[Detail(kind).value], depth);
    }
  }

  lemma VariantKeys(v: Json, kind: Text)
    requires v.Obj?
    ensures IsVariant(v, kind) <==>
      && v.fields.Keys <= VariantProperties(kind).Keys
      && Kind in v.fields && (Detail(kind).Some? ==> Detail(kind).value in v.fields)
      && v.fields[Kind] == Str(kind)
      && (Detail(kind).Some? ==> IsDetail(v.fields[Detail(kind).value]))
  {
    assert VariantProperties(kind).Keys == {Kind} + Details(kind);
  }

  lemma VariantFits(schemas: map<Text, Json>, kind: Text, v: Json, depth: nat)
    ensures Fits(schemas, VariantRequired(kind), VariantProperties(kind), v, depth) <==> IsVariant(v, kind)
  {
    if v.Obj? {
      RequiredMeans(v, kind);
      PropertiesMean(schemas, v, kind, depth);
      VariantKeys(v, kind);
    }
  }

  lemma VariantMeans(schemas: map<Text, Json>, kind: Text, v: Json, depth: nat)
    ensures Accepts(schemas, VariantShape(kind), v, depth) <==> IsVariant(v, kind)
  {
    VariantClosed(kind);
    ClosedObjectMeans(schemas, VariantShape(kind), VariantRequired(kind), VariantProperties(kind), v, depth);
    VariantFits(schemas, kind, v, depth);
  }

  /** A `oneOf` whose branches accept by kind, and different kinds different objects. */
  lemma UnionMeans(schemas: map<Text, Json>, union: Json, items: seq<Json>, v: Json, depth: nat)
    requires IsUnion(union, items)
    requires forall i | 0 <= i < |items| :: Accepts(schemas, items[i], v, depth) <==> IsVariant(v, VARIANTS[i])
    ensures Accepts(schemas, union, v, depth) <==> exists i :: 0 <= i < |VARIANTS| && IsVariant(v, VARIANTS[i])
  {
    if i: nat :| i < |VARIANTS| && IsVariant(v, VARIANTS[i]) {
      forall j: nat | j < |items| && j != i ensures !Accepts(schemas, items[j], v, depth) {
        OneVariant(v, i, j);
      }
      assert Accepts(schemas, items[i], v, depth);
    }
  }

  lemma OneVariant(v: Json, i: nat, j: nat)
    requires i < |VARIANTS| && j < |VARIANTS| && i != j && IsVariant(v, VARIANTS[i])
    ensures !IsVariant(v, VARIANTS[j])
  {
    assert v.fields[Kind] == Str(VARIANTS[i]) && VARIANTS[j] != VARIANTS[i];
  }

  lemma BranchMeans(document: Json, kind: Text, v: Json, depth: nat)
    requires Strict(document) && depth > 0 && kind in VARIANTS
    ensures Accepts(SchemasOf(document).value, Obj(map[Ref := Str(VariantRef(kind))]), v, depth) <==> IsVariant(v, kind)
  {
    var schemas := SchemasOf(document).value;
    assert Get(schemas, ExecTerminationOf(kind)) == VariantShape(kind);
    RefMeans(schemas, ExecTerminationOf(kind), v, depth);
    VariantMeans(schemas, kind, v, depth - 1);
  }

  /** The branches of the strict union, in order. */
  predicate IsUnion(schema: Json, items: seq<Json>) {
    && schema.Obj? && schema.fields.Keys == {OneOf, Discriminator} && schema.fields[OneOf] == Arr(items)
    && |items| == |VARIANTS|
    && forall i | 0 <= i < |items| :: items[i] == Obj(map[Ref := Str(VariantRef(VARIANTS[i]))])
  }

  lemma StrictShape()
    ensures IsUnion(STRICT_TERMINATION, STRICT_TERMINATION.fields[OneOf].items)
  {}

  /** The union accepts the objects of the four variants; two variants never accept the same object. */
  lemma StrictMeans(document: Json, union: Json, items: seq<Json>, v: Json, depth: nat)
    requires Strict(document) && depth > 0 && IsUnion(union, items)
    ensures Accepts(SchemasOf(document).value, union, v, depth)
            <==> exists i :: 0 <= i < |VARIANTS| && IsVariant(v, VARIANTS[i])
  {
    var schemas := SchemasOf(document).value;
    forall i | 0 <= i < |items| ensures Accepts(schemas, items[i], v, depth) <==> IsVariant(v, VARIANTS[i]) {
      assert VARIANTS[i] in VARIANTS;
      BranchMeans(document, VARIANTS[i], v, depth);
    }
    UnionMeans(schemas, union, items, v, depth);
  }

  /** The shape of the projected schema's properties. */
  predicate ProjectedProperties(properties: map<Text, Json>) {
    && properties.Keys == {Kind, ExitCode, Signal}
    && properties[Kind] == Obj(map[Type := Str(String), Enum := Arr(
         [Str(Exited), Str(Signaled), Str(TimedOut), Str(OutputLimitExceeded)])])
    && IsInt32(properties[ExitCode]) && IsInt32(properties[Signal])
  }

  lemma ProjectedClosed()
    ensures IsClosedObject(PROJECTED_TERMINATION, [Str(Kind)], PROJECTED_TERMINATION.fields[Properties].fields)
    ensures ProjectedProperties(PROJECTED_TERMINATION.fields[Properties].fields)
  {}

  lemma ProjectedMeans(schemas: map<Text, Json>, v: Json, depth: nat)
    ensures Accepts(schemas, PROJECTED_TERMINATION, v, depth) <==> Shaped(v, KINDS, {ExitCode, Signal})
  {
    ProjectedClosed();
    var properties := PROJECTED_TERMINATION.fields[Properties].fields;
    ClosedObjectMeans(schemas, PROJECTED_TERMINATION, [Str(Kind)], properties, v, depth);
    ProjectedKeys(schemas, properties, v, depth);
  }

  lemma ProjectedKeys(schemas: map<Text, Json>, properties: map<Text, Json>, v: Json, depth: nat)
    requires ProjectedProperties(properties)
    ensures Fits(schemas, [Str(Kind)], properties, v, depth) <==> Shaped(v, KINDS, {ExitCode, Signal})
  {
    assert Str(Kind) in [Str(Kind)] && properties.Keys == {Kind} + {ExitCode, Signal};
    if v.Obj? && Kind in v.fields {
      EnumMeans(schemas, [Str(Exited), Str(Signaled), Str(TimedOut), Str(OutputLimitExceeded)], v.fields[Kind], depth);
    }
    if v.Obj? && ExitCode in v.fields {
      Int32Means(schemas, properties[ExitCode], v.fields[ExitCode], depth);
    }
    if v.Obj? && Signal in v.fields {
      Int32Means(schemas, properties[Signal], v.fields[Signal], depth);
    }
  }

  /** Each detail is there exactly when the kind calls for it. */
  predicate DetailsMatch(v: Json) {
    && v.Obj? && Kind in v.fields
    && (ExitCode in v.fields <==> v.fields[Kind] == Str(Exited))
    && (Signal in v.fields <==> v.fields[Kind] == Str(Signaled))
  }

  lemma VariantsMatch(v: Json)
    ensures (exists i :: 0 <= i < |VARIANTS| && IsVariant(v, VARIANTS[i]))
            <==> Shaped(v, KINDS, {ExitCode, Signal}) && DetailsMatch(v)
  {
    if Shaped(v, KINDS, {ExitCode, Signal}) && DetailsMatch(v) {
      var kind := v.fields[Kind];
      var i := if kind == Str(Exited) then 0 else if kind == Str(Signaled) then 1 else if kind == Str(TimedOut) then 2 else 3;
      assert kind == Str(VARIANTS[i]);
      assert IsVariant(v, VARIANTS[i]);
    }
  }

  /** Every termination that the strict union accepts is accepted by the projected schema. Besides, the
      projected schema accepts just those that lack their kind's detail or carry the other kind's. */
  lemma ProjectionWidens(document: Json, v: Json, depth: nat)
    requires Strict(document) && depth > 0
    ensures Accepts(SchemasOf(document).value, STRICT_TERMINATION, v, depth)
            <==> Accepts(SchemasOf(document).value, PROJECTED_TERMINATION, v, depth) && DetailsMatch(v)
  {
    StrictShape();
    StrictMeans(document, STRICT_TERMINATION, STRICT_TERMINATION.fields[OneOf].items, v, depth);
    ProjectedMeans(SchemasOf(document).value, v, depth);
    VariantsMatch(v);
  }
}
