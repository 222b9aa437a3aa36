/** Table schemas and the merge that lets a table's schema grow
    (`control_plane/src/schema_massager.rs`).  A merge that the source aborts on
    (a field changes its type) is `None`. */
module Schemas {
  import opened Prelude

  datatype DataType =
    | Array(element: DataType)
    | Boolean
    | Float
    | Integer
    | Null
    | Object(schema: Schema)
    | String

  datatype Field = Field(name: string, dataType: DataType)

  datatype Schema = Schema(fields: seq<Field>)

  // ---------------------------------------------------------------- lookup

  /** The map view of a field list; as in `to_map`, a later duplicate wins. */
  function Get(fs: seq<Field>, n: string): Option<DataType> {
    if |fs| == 0 then None
    else if fs[|fs| - 1].name == n then Some(fs[|fs| - 1].dataType)
    else Get(fs[..|fs| - 1], n)
  }

  /** Index of the first field called `n`, or the length of the list. */
  function First(fs: seq<Field>, n: string): (p: nat)
    ensures p <= |fs|
    ensures p < |fs| ==> fs[p].name == n
    ensures forall i :: 0 <= i < p ==> fs[i].name != n
  {
    if |fs| == 0 then 0
    else if fs[0].name == n then 0
    else 1 + First(fs[1..], n)
  }

  function SetType(fs: seq<Field>, n: string, t: DataType): seq<Field> {
    var p := First(fs, n);
    if p < |fs| then fs[p := Field(n, t)] else fs
  }

  predicate UniqueNames(fs: seq<Field>) {
    forall i, j :: 0 <= i < j < |fs| ==> fs[i].name != fs[j].name
  }

  predicate WellFormed(t: DataType) {
    match t
    case Array(e) => WellFormed(e)
    case Object(s) => WellFormedSchema(s)
    case _ => true
  }

  predicate WellFormedSchema(s: Schema) {
    UniqueNames(s.fields) && forall i :: 0 <= i < |s.fields| ==> WellFormed(s.fields[i].dataType)
  }

  lemma {:induction false} GetAt(fs: seq<Field>, i: nat)
    requires UniqueNames(fs) && i < |fs|
    ensures Get(fs, fs[i].name) == Some(fs[i].dataType)
  {
    if i < |fs| - 1 {
      assert fs[i].name != fs[|fs| - 1].name;
      GetAt(fs[..|fs| - 1], i);
    }
  }

  lemma {:induction false} GetIndex(fs: seq<Field>, n: string) returns (i: nat)
    requires Get(fs, n).Some?
    ensures i < |fs| && fs[i].name == n && Get(fs, n) == Some(fs[i].dataType)
  {
    if fs[|fs| - 1].name == n { i := |fs| - 1; } else { i := GetIndex(fs[..|fs| - 1], n); }
  }

  lemma {:induction false} GetAbsent(fs: seq<Field>, n: string)
    ensures Get(fs, n).None? <==> First(fs, n) == |fs|
  {
    if Get(fs, n).Some? {
      var i := GetIndex(fs, n);
    } else if First(fs, n) < |fs| {
      GetPresent(fs, First(fs, n));
    }
  }

  lemma {:induction false} GetPresent(fs: seq<Field>, i: nat)
    requires i < |fs|
    ensures Get(fs, fs[i].name).Some?
  {
    if i < |fs| - 1 && fs[i].name != fs[|fs| - 1].name { GetPresent(fs[..|fs| - 1], i); }
  }

  lemma GetAppend(fs: seq<Field>, f: Field, n: string)
    ensures Get(fs + [f], n) == if n == f.name then Some(f.dataType) else Get(fs, n)
  {
    assert (fs + [f])[..|fs|] == fs;
  }

  lemma {:induction false} GetSet(fs: seq<Field>, n: string, t: DataType, x: string)
    requires UniqueNames(fs) && Get(fs, n).Some?
    ensures UniqueNames(SetType(fs, n, t))
    ensures Get(SetType(fs, n, t), x) == if x == n then Some(t) else Get(fs, x)
  {
    GetAbsent(fs, n);
    var p := First(fs, n);
    var r := SetType(fs, n, t);
    assert forall i :: 0 <= i < |fs| ==> r[i].name == fs[i].name;
    GetAt(r, p);
    if x != n {
      GetAbsent(fs, x);
      GetAbsent(r, x);
      if First(fs, x) < |fs| {
        GetAt(fs, First(fs, x));
        GetAt(r, First(fs, x));
      }
    }
  }

  // ----------------------------------------------------------------- merge

  datatype MergeOutcome = TypeChange | Keep | Replace(dataType: DataType)

  /** `merge_field`: what merging a field of type `u` does to a field of type `t`. */
  function MergeField(t: DataType, u: DataType): MergeOutcome
    decreases u
  {
    if u.Null? then Keep
    else if t.Null? then Replace(u)
    else if u.Object? && t.Object? then
      match MergeFrom(t.schema, u.schema)
      case Some(m) => Replace(Object(m))
      case None => TypeChange
    else if u.Array? && t.Array? then
      if u.element.Null? then Keep
      else if t.element.Null? then Replace(u)
      else if u.element.Object? && t.element.Object? then
        match MergeFrom(t.element.schema, u.element.schema)
        case Some(m) => Replace(Array(Object(m)))
        case None => TypeChange
      else if t.element != u.element then TypeChange
      else Keep
    else if t != u then TypeChange
    else Keep
  }

  function MergeFrom(s: Schema, other: Schema): Option<Schema>
    decreases other, |other.fields| + 1
  {
    match MergeFields(s.fields, s.fields, other, 0)
    case Some(fs) => Some(Schema(fs))
    case None => None
  }

  /** The loop of `merge_from` from field `k` of `other` on; `orig` is the map taken before the loop. */
  function MergeFields(orig: seq<Field>, cur: seq<Field>, other: Schema, k: nat): Option<seq<Field>>
    requires k <= |other.fields|
    decreases other, |other.fields| - k
  {
    if k == |other.fields| then Some(cur)
    else
      var f := other.fields[k];
      match Get(orig, f.name)
      case None => MergeFields(orig, cur + [f], other, k + 1)
      case Some(t) =>
        match MergeField(t, f.dataType)
        case TypeChange => None
        case Keep => MergeFields(orig, cur, other, k + 1)
        case Replace(m) => MergeFields(orig, SetType(cur, f.name, m), other, k + 1)
  }

  /** The type a field ends up with. */
  function MergeType(t: DataType, u: DataType): Option<DataType> {
    match MergeField(t, u)
    case TypeChange => None
    case Keep => Some(t)
    case Replace(m) => Some(m)
  }

  // ------------------------------------------------- merge as a map of types

  /** The type of `n` once the fields `os` are merged into `orig`. */
  function Joined(orig: seq<Field>, os: seq<Field>, n: string): Option<DataType> {
    match Get(os, n)
    case None => Get(orig, n)
    case Some(u) =>
      match Get(orig, n)
      case None => Some(u)
      case Some(t) => MergeType(t, u)
  }

  predicate Compatible(orig: seq<Field>, os: seq<Field>) {
    forall i :: 0 <= i < |os| ==>
      Get(orig, os[i].name).None? || MergeType(Get(orig, os[i].name).value, os[i].dataType).Some?
  }

  ghost predicate MergedSoFar(orig: seq<Field>, cur: seq<Field>, os: seq<Field>) {
    && UniqueNames(cur)
    && forall n :: Get(cur, n) == Joined(orig, os, n)
  }

  lemma MergeFieldsStep(orig: seq<Field>, cur: seq<Field>, next: seq<Field>, other: Schema, k: nat)
    requires UniqueNames(orig) && UniqueNames(other.fields) && k < |other.fields|
    requires MergedSoFar(orig, cur, other.fields[..k])
    requires var f := other.fields[k];
             match Get(orig, f.name)
             case None => next == cur + [f]
             case Some(t) =>
               match MergeField(t, f.dataType)
               case TypeChange => false
               case Keep => next == cur
               case Replace(m) => next == SetType(cur, f.name, m)
    ensures MergedSoFar(orig, next, other.fields[..k + 1])
  {
    var f := other.fields[k];
    var os := other.fields[..k];
    assert other.fields[..k + 1] == os + [f];
    GetAbsent(os, f.name);
    assert Get(os, f.name).None?;
    forall n
      ensures Get(next, n) == Joined(orig, os + [f], n)
    {
      GetAppend(os, f, n);
      GetAppend(cur, f, n);
      if Get(orig, f.name).Some? {
        GetSet(cur, f.name, MergeType(Get(orig, f.name).value, f.dataType).value, n);
      }
    }
    assert UniqueNames(next) by {
      assert Get(cur, f.name) == Get(orig, f.name);
      GetAbsent(cur, f.name);
      if Get(orig, f.name).Some? {
        GetSet(cur, f.name, MergeType(Get(orig, f.name).value, f.dataType).value, f.name);
      }
    }
  }

  lemma {:induction false} MergeFieldsMeaning(orig: seq<Field>, cur: seq<Field>, other: Schema, k: nat)
    requires UniqueNames(orig) && UniqueNames(other.fields) && k <= |other.fields|
    requires MergedSoFar(orig, cur, other.fields[..k])
    requires Compatible(orig, other.fields[..k])
    ensures MergeFields(orig, cur, other, k).Some? <==> Compatible(orig, other.fields)
    ensures MergeFields(orig, cur, other, k).Some? ==>
              MergedSoFar(orig, MergeFields(orig, cur, other, k).value, other.fields)
    decreases |other.fields| - k
  {
    if k == |other.fields| {
      assert other.fields[..k] == other.fields;
    } else {
      var f := other.fields[k];
      assert other.fields[..k + 1] == other.fields[..k] + [f];
      var next := match Get(orig, f.name)
        case None => cur + [f]
        case Some(t) =>
          match MergeField(t, f.dataType)
          case TypeChange => cur
          case Keep => cur
          case Replace(m) => SetType(cur, f.name, m);
      if Get(orig, f.name).Some? && MergeField(Get(orig, f.name).value, f.dataType).TypeChange? {
        assert !Compatible(orig, other.fields);
      } else {
        MergeFieldsStep(orig, cur, next, other, k);
        MergeFieldsMeaning(orig, next, other, k + 1);
      }
    }
  }

  /** `merge_from` keeps names unique and gives each name the join of its two types. */
  lemma MergeFromMeaning(s: Schema, o: Schema)
    requires UniqueNames(s.fields) && UniqueNames(o.fields)
    ensures MergeFrom(s, o).Some? <==> Compatible(s.fields, o.fields)
    ensures MergeFrom(s, o).Some? ==> MergedSoFar(s.fields, MergeFrom(s, o).value.fields, o.fields)
  {
    MergeFieldsMeaning(s.fields, s.fields, o, 0);
  }

  function Names(fs: seq<Field>): seq<string> { seq(|fs|, i requires 0 <= i < |fs| => fs[i].name) }

  /** The names of `os` that `orig` lacks, in order. */
  function NewNames(orig: seq<Field>, os: seq<Field>): seq<string> {
    if |os| == 0 then []
    else
      NewNames(orig, os[..|os| - 1]) + if os[|os| - 1].name in Names(orig) then [] else [os[|os| - 1].name]
  }

  lemma SetTypeNames(fs: seq<Field>, n: string, t: DataType)
    ensures Names(SetType(fs, n, t)) == Names(fs)
  {
  }

  lemma GetNames(fs: seq<Field>, n: string)
    ensures Get(fs, n).Some? <==> n in Names(fs)
  {
    if Get(fs, n).Some? {
      var i := GetIndex(fs, n);
      assert Names(fs)[i] == n;
    }
    if n in Names(fs) {
      var i :| 0 <= i < |fs| && Names(fs)[i] == n;
      GetPresent(fs, i);
    }
  }

  lemma NewNamesMore(orig: seq<Field>, other: seq<Field>, k: nat)
    requires k < |other|
    ensures NewNames(orig, other[..k + 1])
            == NewNames(orig, other[..k]) + if other[k].name in Names(orig) then [] else [other[k].name]
  {
    assert other[..k + 1][..k] == other[..k];
  }

  lemma {:induction false} MergeFieldsOrder(orig: seq<Field>, cur: seq<Field>, other: Schema, k: nat)
    requires k <= |other.fields| && MergeFields(orig, cur, other, k).Some?
    requires Names(cur) == Names(orig) + NewNames(orig, other.fields[..k])
    ensures Names(MergeFields(orig, cur, other, k).value) == Names(orig) + NewNames(orig, other.fields)
    decreases |other.fields| - k
  {
    if k == |other.fields| {
      assert other.fields[..k] == other.fields;
    } else {
      var f := other.fields[k];
      GetNames(orig, f.name);
      NewNamesMore(orig, other.fields, k);
      match Get(orig, f.name) {
        case None =>
          assert Names(cur + [f]) == Names(cur) + [f.name];
          MergeFieldsOrder(orig, cur + [f], other, k + 1);
        case Some(t) =>
          match MergeField(t, f.dataType) {
            case Replace(m) =>
              SetTypeNames(cur, f.name, m);
              MergeFieldsOrder(orig, SetType(cur, f.name, m), other, k + 1);
            case Keep => MergeFieldsOrder(orig, cur, other, k + 1);
          }
      }
    }
  }

  /** The fields keep their order, and new ones are appended in theirs. */
  lemma MergeFromOrder(s: Schema, o: Schema)
    requires MergeFrom(s, o).Some?
    ensures Names(MergeFrom(s, o).value.fields) == Names(s.fields) + NewNames(s.fields, o.fields)
  {
    assert o.fields[..0] == [] && Names(s.fields) + [] == Names(s.fields);
    MergeFieldsOrder(s.fields, s.fields, o, 0);
  }

  lemma {:induction false} MergeKeepsWellFormed(t: DataType, u: DataType)
    requires WellFormed(t) && WellFormed(u) && MergeType(t, u).Some?
    ensures WellFormed(MergeType(t, u).value)
    decreases u
  {
    if t.Object? && u.Object? {
      MergeFromKeepsWellFormed(t.schema, u.schema);
    } else if t.Array? && u.Array? && t.element.Object? && u.element.Object? {
      MergeFromKeepsWellFormed(t.element.schema, u.element.schema);
    }
  }

  lemma {:induction false} MergeFromKeepsWellFormed(s: Schema, o: Schema)
    requires WellFormedSchema(s) && WellFormedSchema(o) && MergeFrom(s, o).Some?
    ensures WellFormedSchema(MergeFrom(s, o).value)
    decreases o, 0
  {
    MergeFromMeaning(s, o);
    var m := MergeFrom(s, o).value;
    forall i | 0 <= i < |m.fields|
      ensures WellFormed(m.fields[i].dataType)
    {
      var n := m.fields[i].name;
      GetAt(m.fields, i);
      assert Get(m.fields, n) == Joined(s.fields, o.fields, n);
      if Get(s.fields, n).Some? { var a := GetIndex(s.fields, n); }
      if Get(o.fields, n).Some? {
        var b := GetIndex(o.fields, n);
        if Get(s.fields, n).Some? {
          MergeKeepsWellFormed(Get(s.fields, n).value, o.fields[b].dataType);
        }
      }
    }
  }

  // ------------------------------------------------------- information order

  /** `t` says no more than `u`: nulls may be refined, objects may gain fields.
      Arrays are refined only when empty of type or holding objects. */
  predicate Leq(t: DataType, u: DataType) {
    match t
    case Null => true
    case Object(s) => u.Object? && LeqSchema(s, u.schema)
    case Array(e) => u.Array? && (e.Null? || e == u.element || (e.Object? && u.element.Object? && Leq(e, u.element)))
    case _ => t == u
  }

  predicate LeqSchema(s: Schema, r: Schema) {
    forall i :: 0 <= i < |s.fields| ==>
      Get(r.fields, s.fields[i].name).Some? && Leq(s.fields[i].dataType, Get(r.fields, s.fields[i].name).value)
  }

  lemma {:induction false} LeqReflexive(t: DataType)
    requires WellFormed(t)
    ensures Leq(t, t)
  {
    if t.Object? {
      forall i | 0 <= i < |t.schema.fields|
        ensures Get(t.schema.fields, t.schema.fields[i].name).Some?
        ensures Leq(t.schema.fields[i].dataType, Get(t.schema.fields, t.schema.fields[i].name).value)
      {
        GetAt(t.schema.fields, i);
        LeqReflexive(t.schema.fields[i].dataType);
      }
    }
  }

  lemma {:induction false} LeqTransitive(t: DataType, u: DataType, v: DataType)
    requires Leq(t, u) && Leq(u, v)
    ensures Leq(t, v)
    decreases t
  {
    if t.Object? {
      LeqSchemaTransitive(t.schema, u.schema, v.schema);
    } else if t.Array? && t.element.Object? && t.element != u.element && u.element != v.element {
      LeqTransitive(t.element, u.element, v.element);
    }
  }

  lemma {:induction false} LeqSchemaTransitive(s: Schema, r: Schema, q: Schema)
    requires LeqSchema(s, r) && LeqSchema(r, q)
    ensures LeqSchema(s, q)
    decreases s, 0
  {
    forall i | 0 <= i < |s.fields|
      ensures Get(q.fields, s.fields[i].name).Some?
      ensures Leq(s.fields[i].dataType, Get(q.fields, s.fields[i].name).value)
    {
      var j := GetIndex(r.fields, s.fields[i].name);
      LeqTransitive(s.fields[i].dataType, r.fields[j].dataType, Get(q.fields, s.fields[i].name).value);
    }
  }

  lemma LeqGet(s: Schema, r: Schema, n: string)
    requires LeqSchema(s, r) && Get(s.fields, n).Some?
    ensures Get(r.fields, n).Some? && Leq(Get(s.fields, n).value, Get(r.fields, n).value)
  {
    var i := GetIndex(s.fields, n);
  }

  /** A merge bounds both of its inputs from above. */
  lemma {:induction false} MergeUpper(t: DataType, u: DataType)
    requires WellFormed(t) && WellFormed(u) && MergeType(t, u).Some?
    ensures Leq(t, MergeType(t, u).value) && Leq(u, MergeType(t, u).value)
    decreases u
  {
    LeqReflexive(t);
    LeqReflexive(u);
    if t.Object? && u.Object? {
      MergeFromUpper(t.schema, u.schema);
    } else if t.Array? && u.Array? && t.element.Object? && u.element.Object? {
      MergeFromUpper(t.element.schema, u.element.schema);
    }
  }

  lemma {:induction false} MergeFromUpper(s: Schema, o: Schema)
    requires WellFormedSchema(s) && WellFormedSchema(o) && MergeFrom(s, o).Some?
    ensures LeqSchema(s, MergeFrom(s, o).value) && LeqSchema(o, MergeFrom(s, o).value)
    decreases o, 0
  {
    MergeFromMeaning(s, o);
    var m := MergeFrom(s, o).value;
    forall i | 0 <= i < |s.fields|
      ensures Get(m.fields, s.fields[i].name).Some?
      ensures Leq(s.fields[i].dataType, Get(m.fields, s.fields[i].name).value)
    {
      var n := s.fields[i].name;
      assert Get(m.fields, n) == Joined(s.fields, o.fields, n);
      GetAt(s.fields, i);
      LeqReflexive(s.fields[i].dataType);
      if Get(o.fields, n).Some? {
        var j := GetIndex(o.fields, n);
        MergeUpper(s.fields[i].dataType, o.fields[j].dataType);
      }
    }
    forall i | 0 <= i < |o.fields|
      ensures Get(m.fields, o.fields[i].name).Some?
      ensures Leq(o.fields[i].dataType, Get(m.fields, o.fields[i].name).value)
    {
      var n := o.fields[i].name;
      assert Get(m.fields, n) == Joined(s.fields, o.fields, n);
      GetAt(o.fields, i);
      LeqReflexive(o.fields[i].dataType);
      if Get(s.fields, n).Some? {
        var j := GetIndex(s.fields, n);
        MergeUpper(s.fields[j].dataType, o.fields[i].dataType);
      }
    }
  }

  /** Types with a common upper bound always merge, and the merge is below every such bound. */
  lemma {:induction false} MergeLeast(t: DataType, u: DataType, c: DataType)
    requires WellFormed(t) && WellFormed(u) && WellFormed(c)
    requires Leq(t, c) && Leq(u, c)
    ensures MergeType(t, u).Some? && Leq(MergeType(t, u).value, c)
    decreases u
  {
    if t.Object? && u.Object? {
      MergeFromLeast(t.schema, u.schema, c.schema);
    } else if t.Array? && u.Array? && t.element.Object? && u.element.Object? {
      LeqReflexive(c.element);
      MergeFromLeast(t.element.schema, u.element.schema, c.element.schema);
    }
  }

  lemma {:induction false} MergeFromLeast(s: Schema, o: Schema, c: Schema)
    requires WellFormedSchema(s) && WellFormedSchema(o) && WellFormedSchema(c)
    requires LeqSchema(s, c) && LeqSchema(o, c)
    ensures MergeFrom(s, o).Some? && LeqSchema(MergeFrom(s, o).value, c)
    decreases o, 1
  {
    MergeFromMeaning(s, o);
    forall i | 0 <= i < |o.fields|
      ensures Get(s.fields, o.fields[i].name).None?
           || MergeType(Get(s.fields, o.fields[i].name).value, o.fields[i].dataType).Some?
    {
      var n := o.fields[i].name;
      if Get(s.fields, n).Some? {
        MergeFieldLeast(s, o, c, n, i);
      }
    }
    var m := MergeFrom(s, o).value;
    forall i | 0 <= i < |m.fields|
      ensures Get(c.fields, m.fields[i].name).Some?
      ensures Leq(m.fields[i].dataType, Get(c.fields, m.fields[i].name).value)
    {
      var n := m.fields[i].name;
      GetAt(m.fields, i);
      assert Get(m.fields, n) == Joined(s.fields, o.fields, n);
      if Get(s.fields, n).Some? { LeqGet(s, c, n); }
      if Get(o.fields, n).Some? {
        LeqGet(o, c, n);
        if Get(s.fields, n).Some? {
          var j := GetIndex(o.fields, n);
          MergeFieldLeast(s, o, c, n, j);
        }
      }
    }
  }

  lemma {:induction false} MergeFieldLeast(s: Schema, o: Schema, c: Schema, n: string, i: nat)
    requires WellFormedSchema(s) && WellFormedSchema(o) && WellFormedSchema(c)
    requires LeqSchema(s, c) && LeqSchema(o, c)
    requires i < |o.fields| && o.fields[i].name == n && Get(s.fields, n).Some?
    ensures Get(c.fields, n).Some?
    ensures MergeType(Get(s.fields, n).value, o.fields[i].dataType).Some?
    ensures Leq(MergeType(Get(s.fields, n).value, o.fields[i].dataType).value, Get(c.fields, n).value)
    decreases o, 0
  {
    var j := GetIndex(s.fields, n);
    var k := GetIndex(c.fields, n);
    MergeLeast(s.fields[j].dataType, o.fields[i].dataType, c.fields[k].dataType);
  }
}
