/**
JSON Merge Patch, section 2 of RFC 7396.

Objects are maps, so the order of their members is not modelled. Numbers are integers. Texts that the
code-generation contract names are interned as constructors; any other text is `Other`.
*/
module JsonMergePatch {
  import opened Core

  datatype Text =
    | Components | Schemas | OneOf | Discriminator | PropertyName | Mapping | Ref
    | Type | AdditionalProperties | Required | Properties | Enum | Format | Description
    | Object | String | Integer | Int32
    | Kind | ExitCode | Signal
    | Exited | Signaled | TimedOut | OutputLimitExceeded
    | ExecTermination | ExecTerminationOf(kind: Text) | SchemaRef(name: Text)
    | Other(text: string)

  datatype Json =
    | Null | Bool(b: bool) | Num(n: int) | Str(text: Text) | Arr(items: seq<Json>) | Obj(fields: map<Text, Json>)

  /** The members a patch is applied to: those of the target, or none if it is not an object. */
  function Base(target: Json): map<Text, Json> { if target.Obj? then target.fields else map[] }

  /** `dict.get`: a missing member reads as null. */
  function Get(fields: map<Text, Json>, key: Text): Json { if key in fields then fields[key] else Null }

  /** What RFC 7396 says the result is: which members it has and what each of them holds. */
  function Merge(target: Json, patch: Json): Json
    decreases patch
  {
    if !patch.Obj? then patch else
    var base := Base(target);
    Obj(map key | key in base.Keys + patch.fields.Keys && !(key in patch.fields && patch.fields[key].Null?) ::
      if key in patch.fields then Merge(Get(base, key), patch.fields[key]) else base[key])
  }

  /** The loop over the patch's members, which updates the copy of the target in any order. */
  method MergePatch(target: Json, patch: Json) returns (r: Json)
    ensures r == Merge(target, patch)
    decreases patch
  {
    if !patch.Obj? {
      return patch;
    }
    var base := Base(target);
    ghost var goal := Merge(target, patch).fields;
    var result := base;
    var todo := patch.fields.Keys;
    while todo != {}
      invariant todo <= patch.fields.Keys
      invariant forall key | key !in todo :: (key in result <==> key in goal) && Get(result, key) == Get(goal, key)
      invariant forall key | key in todo :: (key in result <==> key in base) && Get(result, key) == Get(base, key)
      decreases todo
    {
      var key :| key in todo;
      todo := todo - {key};
      var value := patch.fields[key];
      if value.Null? {
        result := result - {key};
      } else {
        var merged := MergePatch(Get(result, key), value);
        result := result[key := merged];
      }
    }
    assert forall key :: (key in result <==> key in goal) && Get(result, key) == Get(goal, key);
    assert result == goal by { SameGets(result, goal); }
    return Obj(result);
  }

  lemma SameGets(a: map<Text, Json>, b: map<Text, Json>)
    requires forall key :: (key in a <==> key in b) && Get(a, key) == Get(b, key)
    ensures a == b
  {
    forall key | key in a ensures a[key] == b[key] {
      assert Get(a, key) == Get(b, key);
    }
  }

  /** Applying a patch twice is applying it once. */
  lemma {:induction false} MergeIdempotent(target: Json, patch: Json)
    ensures Merge(Merge(target, patch), patch) == Merge(target, patch)
    decreases patch
  {
    if patch.Obj? {
      var merged := Merge(target, patch);
      forall key | key in patch.fields && !patch.fields[key].Null?
        ensures Merge(Get(merged.fields, key), patch.fields[key]) == merged.fields[key]
      {
        MergeIdempotent(Get(Base(target), key), patch.fields[key]);
      }
      assert Merge(merged, patch).fields == merged.fields;
    }
  }

  // --------------------------------------------------------------------------------- what it leaves

  function At(document: Json, path: seq<Text>): Option<Json>
    decreases |path|
  {
    if path == [] then Some(document)
    else if document.Obj? && path[0] in document.fields then At(document.fields[path[0]], path[1..])
    else None
  }

  /** The patch names the value at `path` or one that holds it. */
  predicate Names(patch: Json, path: seq<Text>)
    decreases |path|
  {
    !patch.Obj? || path == [] || (path[0] in patch.fields && Names(patch.fields[path[0]], path[1..]))
  }

  /** What the patch does not name stays, or stays absent, at every depth. */
  lemma {:induction false} MergeFrame(target: Json, patch: Json, path: seq<Text>)
    requires !Names(patch, path)
    ensures At(Merge(target, patch), path) == At(target, path)
    decreases |path|
  {
    if path[0] in patch.fields {
      MergeFrame(Get(Base(target), path[0]), patch.fields[path[0]], path[1..]);
    }
  }

  /** What it names with a value that is not an object is that value, and with null is gone. */
  lemma {:induction false} MergeSets(target: Json, patch: Json, path: seq<Text>)
    requires path != [] && At(patch, path).Some? && !At(patch, path).value.Obj?
    ensures At(Merge(target, patch), path)
            == if At(patch, path).value.Null? then None else At(patch, path)
    decreases |path|
  {
    if |path| > 1 {
      MergeSets(Get(Base(target), path[0]), patch.fields[path[0]], path[1..]);
    }
  }

  /** No member of an object is null, at any depth of objects. */
  predicate NoNullMembers(j: Json) {
    j.Obj? ==> forall key | key in j.fields :: !j.fields[key].Null? && NoNullMembers(j.fields[key])
  }

  /** A patch cannot bring such a member in: its nulls only remove. */
  lemma {:induction false} MergeAddsNoNulls(target: Json, patch: Json)
    requires NoNullMembers(target) && !patch.Null?
    ensures NoNullMembers(Merge(target, patch)) && !Merge(target, patch).Null?
    decreases patch
  {
    if patch.Obj? {
      forall key | key in patch.fields && !patch.fields[key].Null?
        ensures NoNullMembers(Merge(Get(Base(target), key), patch.fields[key]))
        ensures !Merge(Get(Base(target), key), patch.fields[key]).Null?
      {
        MergeAddsNoNulls(Get(Base(target), key), patch.fields[key]);
      }
    }
  }

  /** A merge with a null-free object into nothing is that object. */
  lemma {:induction false} MergeIntoNothing(target: Json, patch: Json)
    requires NoNullMembers(patch) && !target.Obj?
    ensures Merge(target, patch) == patch
    decreases patch
  {
    if patch.Obj? {
      forall key | key in patch.fields ensures Merge(Null, patch.fields[key]) == patch.fields[key] {
        MergeIntoNothing(Null, patch.fields[key]);
      }
      assert Merge(target, patch).fields == patch.fields;
    }
  }
}
