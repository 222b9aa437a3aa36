/** Filling a JSON document up to a schema (`coerce_value`,
    `control_plane/src/schema_massager.rs`).  `None` is an abort of the source. */
module Coercion {
  import opened Prelude
  import opened Schemas

  datatype Json =
    | JNull
    | JBool(b: bool)
    | JNumber(n: int)
    | JString(s: string)
    | JArray(items: seq<Json>)
    | JObject(members: map<string, Json>)

  /** `default_serde_value`. */
  function Default(t: DataType): Json {
    match t
    case Object(s) => JObject(DefaultMembers(s, |s.fields|))
    case _ => JNull
  }

  function DefaultMembers(s: Schema, k: nat): map<string, Json>
    requires k <= |s.fields|
    decreases s, k
  {
    if k == 0 then map[]
    else DefaultMembers(s, k - 1)[s.fields[k - 1].name := Default(s.fields[k - 1].dataType)]
  }

  /** `coerce_value`. */
  function Coerce(s: Schema, v: Json): Option<Json>
    decreases s, |s.fields| + 1
  {
    if !v.JObject? then None
    else
      match CoerceMembers(s, 0, v.members)
      case None => None
      case Some(m) => Some(JObject(m))
  }

  function CoerceMembers(s: Schema, k: nat, m: map<string, Json>): Option<map<string, Json>>
    requires k <= |s.fields|
    decreases s, |s.fields| - k
  {
    if k == |s.fields| then Some(m)
    else
      var f := s.fields[k];
      if f.name !in m then CoerceMembers(s, k + 1, m[f.name := Default(f.dataType)])
      else if f.dataType.Object? then
        match Coerce(f.dataType.schema, m[f.name])
        case None => None
        case Some(c) => CoerceMembers(s, k + 1, m[f.name := c])
      else CoerceMembers(s, k + 1, m)
  }

  /** Every value at an object-typed field is itself an object, all the way down. */
  predicate Conforms(s: Schema, v: Json) {
    && v.JObject?
    && forall i :: 0 <= i < |s.fields| && s.fields[i].name in v.members && s.fields[i].dataType.Object? ==>
         Conforms(s.fields[i].dataType.schema, v.members[s.fields[i].name])
  }

  /** What the document holds at field `f` afterwards. */
  function Filled(f: Field, m: map<string, Json>): Option<Json> {
    if f.name !in m then Some(Default(f.dataType))
    else if f.dataType.Object? then Coerce(f.dataType.schema, m[f.name])
    else Some(m[f.name])
  }

  lemma {:induction false} CoerceMembersMeaning(s: Schema, k: nat, m: map<string, Json>)
    requires UniqueNames(s.fields) && k <= |s.fields|
    ensures CoerceMembers(s, k, m).Some? <==> forall i :: k <= i < |s.fields| ==> Filled(s.fields[i], m).Some?
    ensures CoerceMembers(s, k, m).Some? ==>
              var r := CoerceMembers(s, k, m).value;
              && (forall i :: k <= i < |s.fields| ==>
                    s.fields[i].name in r && Filled(s.fields[i], m) == Some(r[s.fields[i].name]))
              && (forall x :: x in m ==> x in r)
              && (forall x :: x in r && (forall i :: k <= i < |s.fields| ==> s.fields[i].name != x) ==>
                    x in m && r[x] == m[x])
    decreases |s.fields| - k
  {
    if k < |s.fields| {
      var f := s.fields[k];
      if Filled(f, m).Some? {
        var m1 := m[f.name := Filled(f, m).value];
        assert f.name in m && !f.dataType.Object? ==> m1 == m;
        assert CoerceMembers(s, k, m) == CoerceMembers(s, k + 1, m1);
        CoerceMembersMeaning(s, k + 1, m1);
        assert forall i :: k + 1 <= i < |s.fields| ==> Filled(s.fields[i], m1) == Filled(s.fields[i], m);
        if CoerceMembers(s, k, m).Some? {
          var r := CoerceMembers(s, k, m).value;
          assert forall i :: k + 1 <= i < |s.fields| ==> s.fields[i].name != f.name;
          assert f.name in m1;
          assert f.name in r && r[f.name] == m1[f.name];
        }
      }
    }
  }

  /** Coercion succeeds on exactly the conforming documents. */
  lemma {:induction false} CoerceTotal(s: Schema, v: Json)
    requires WellFormedSchema(s)
    ensures Coerce(s, v).Some? <==> Conforms(s, v)
    decreases s
  {
    if v.JObject? {
      CoerceMembersMeaning(s, 0, v.members);
      forall i | 0 <= i < |s.fields|
        ensures Filled(s.fields[i], v.members).Some? <==>
                  (s.fields[i].name in v.members && s.fields[i].dataType.Object? ==>
                     Conforms(s.fields[i].dataType.schema, v.members[s.fields[i].name]))
      {
        var f := s.fields[i];
        if f.dataType.Object? && f.name in v.members {
          assert WellFormed(f.dataType);
          CoerceTotal(f.dataType.schema, v.members[f.name]);
        }
      }
    }
  }

  /** Coercion keeps what is there, descends into objects, and adds every missing field. */
  lemma CoerceMeaning(s: Schema, v: Json)
    requires WellFormedSchema(s) && Coerce(s, v).Some?
    ensures v.JObject? && Coerce(s, v).value.JObject?
    ensures var m, r := v.members, Coerce(s, v).value.members;
            && (forall x :: x in r <==> x in m || Get(s.fields, x).Some?)
            && (forall x :: x in m && !(Get(s.fields, x).Some? && Get(s.fields, x).value.Object?) ==> r[x] == m[x])
            && (forall x :: x in m && Get(s.fields, x).Some? && Get(s.fields, x).value.Object? ==>
                  Coerce(Get(s.fields, x).value.schema, m[x]) == Some(r[x]))
            && (forall x :: x in r && x !in m ==> r[x] == Default(Get(s.fields, x).value))
  {
    CoerceMembersMeaning(s, 0, v.members);
    var m, r := v.members, Coerce(s, v).value.members;
    forall x
      ensures x in r <==> x in m || Get(s.fields, x).Some?
      ensures x in r && Get(s.fields, x).Some? ==> Filled(Field(x, Get(s.fields, x).value), m) == Some(r[x])
      ensures x in r && Get(s.fields, x).None? ==> x in m && r[x] == m[x]
    {
      if Get(s.fields, x).Some? {
        var i := GetIndex(s.fields, x);
      } else {
        GetAbsent(s.fields, x);
      }
    }
  }

  lemma {:induction false} DefaultMembersMeaning(s: Schema, k: nat, i: nat)
    requires UniqueNames(s.fields) && i < k <= |s.fields|
    ensures s.fields[i].name in DefaultMembers(s, k)
    ensures DefaultMembers(s, k)[s.fields[i].name] == Default(s.fields[i].dataType)
    decreases k
  {
    if i < k - 1 {
      assert s.fields[i].name != s.fields[k - 1].name;
      DefaultMembersMeaning(s, k - 1, i);
    }
  }

  lemma {:induction false} DefaultMembersOnly(s: Schema, k: nat, x: string)
    requires k <= |s.fields| && x in DefaultMembers(s, k)
    ensures exists i :: 0 <= i < k && s.fields[i].name == x
    decreases k
  {
    if k > 0 && x != s.fields[k - 1].name { DefaultMembersOnly(s, k - 1, x); }
  }

  /** Null at every leaf: an object has exactly the fields of its schema, and everything else is null. */
  ghost predicate NullsOnly(t: DataType, v: Json)
    decreases t
  {
    if !t.Object? then v == JNull
    else
      && v.JObject?
      && (forall x :: x in v.members ==> exists i :: 0 <= i < |t.schema.fields| && t.schema.fields[i].name == x)
      && forall i :: 0 <= i < |t.schema.fields| ==>
           && t.schema.fields[i].name in v.members
           && NullsOnly(t.schema.fields[i].dataType, v.members[t.schema.fields[i].name])
  }

  /** The default of a type is null at every leaf. */
  lemma {:induction false} DefaultIsNulls(t: DataType)
    requires WellFormed(t)
    ensures NullsOnly(t, Default(t))
    decreases t
  {
    if t.Object? {
      var s := t.schema;
      forall i | 0 <= i < |s.fields|
        ensures s.fields[i].name in DefaultMembers(s, |s.fields|)
        ensures NullsOnly(s.fields[i].dataType, DefaultMembers(s, |s.fields|)[s.fields[i].name])
      {
        DefaultMembersMeaning(s, |s.fields|, i);
        DefaultIsNulls(s.fields[i].dataType);
      }
      forall x | x in DefaultMembers(s, |s.fields|)
        ensures exists i :: 0 <= i < |s.fields| && s.fields[i].name == x
      {
        DefaultMembersOnly(s, |s.fields|, x);
      }
    }
  }

  /** A missing field is filled with null, or with an object that holds nulls at every leaf. */
  lemma MissingIsNulls(s: Schema, v: Json, i: nat)
    requires WellFormedSchema(s) && Coerce(s, v).Some? && i < |s.fields| && s.fields[i].name !in v.members
    ensures Coerce(s, v).value.JObject? && s.fields[i].name in Coerce(s, v).value.members
    ensures NullsOnly(s.fields[i].dataType, Coerce(s, v).value.members[s.fields[i].name])
  {
    CoerceMeaning(s, v);
    GetAt(s.fields, i);
    DefaultIsNulls(s.fields[i].dataType);
  }

  lemma {:induction false} Unchanged(s: Schema, k: nat, m: map<string, Json>)
    requires WellFormedSchema(s) && k <= |s.fields|
    requires forall i :: 0 <= i < |s.fields| ==>
               s.fields[i].name in m && Filled(s.fields[i], m) == Some(m[s.fields[i].name])
    ensures CoerceMembers(s, k, m) == Some(m)
    decreases |s.fields| - k
  {
    if k < |s.fields| {
      var f := s.fields[k];
      assert f.dataType.Object? ==> m[f.name := m[f.name]] == m;
      Unchanged(s, k + 1, m);
    }
  }

  lemma {:induction false} DefaultIsCoerced(s: Schema)
    requires WellFormedSchema(s)
    ensures Coerce(s, Default(Object(s))) == Some(Default(Object(s)))
    decreases s
  {
    var m := DefaultMembers(s, |s.fields|);
    forall i | 0 <= i < |s.fields|
      ensures s.fields[i].name in m && Filled(s.fields[i], m) == Some(m[s.fields[i].name])
    {
      DefaultMembersMeaning(s, |s.fields|, i);
      assert WellFormed(s.fields[i].dataType);
      if s.fields[i].dataType.Object? { DefaultIsCoerced(s.fields[i].dataType.schema); }
    }
    Unchanged(s, 0, m);
  }

  /** Coercing twice is coercing once. */
  lemma {:induction false} CoerceIdempotent(s: Schema, v: Json)
    requires WellFormedSchema(s) && Coerce(s, v).Some?
    ensures Coerce(s, Coerce(s, v).value) == Coerce(s, v)
    decreases s
  {
    CoerceMembersMeaning(s, 0, v.members);
    var m, r := v.members, Coerce(s, v).value.members;
    forall i | 0 <= i < |s.fields|
      ensures s.fields[i].name in r && Filled(s.fields[i], r) == Some(r[s.fields[i].name])
    {
      var f := s.fields[i];
      assert Filled(f, m) == Some(r[f.name]);
      assert WellFormed(f.dataType);
      if f.dataType.Object? {
        if f.name in m {
          CoerceIdempotent(f.dataType.schema, m[f.name]);
        } else {
          DefaultIsCoerced(f.dataType.schema);
        }
      }
    }
    Unchanged(s, 0, r);
  }

  /** Merging is not enough for totality: a document with an explicit null fits the schema
      inferred from it, but aborts under the merge with a schema where that field is an object. */
  lemma MergedSchemaCanAbort()
    ensures var own := Schema([Field("a", Null)]);
            var other := Schema([Field("a", Object(Schema([])))]);
            var doc := JObject(map["a" := JNull]);
            && MergeFrom(own, other) == Some(other)
            && Coerce(own, doc) == Some(doc)
            && Coerce(other, doc).None?
  {
    var own := Schema([Field("a", Null)]);
    var other := Schema([Field("a", Object(Schema([])))]);
    var doc := JObject(map["a" := JNull]);
    assert Get(own.fields, "a") == Some(Null);
    assert First(own.fields, "a") == 0;
    assert SetType(own.fields, "a", other.fields[0].dataType) == other.fields;
    assert MergeFields(own.fields, own.fields, other, 0) == MergeFields(own.fields, other.fields, other, 1);
    assert CoerceMembers(own, 0, doc.members) == CoerceMembers(own, 1, doc.members);
    assert Coerce(Schema([]), JNull).None?;
  }

  /** `coerce_value` as the source runs it: one pass over the fields, filling the map in place. */
  method CoerceValue(s: Schema, v: Json) returns (r: Option<Json>)
    ensures r == Coerce(s, v)
    decreases s
  {
    if !v.JObject? { return None; }
    var members := v.members;
    var k := 0;
    while k < |s.fields|
      invariant k <= |s.fields|
      invariant CoerceMembers(s, 0, v.members) == CoerceMembers(s, k, members)
    {
      var f := s.fields[k];
      if f.name in members {
        if f.dataType.Object? {
          var inner := CoerceValue(f.dataType.schema, members[f.name]);
          if inner.None? { return None; }
          members := members[f.name := inner.value];
        }
      } else {
        members := members[f.name := Default(f.dataType)];
      }
      k := k + 1;
    }
    return Some(JObject(members));
  }
}
