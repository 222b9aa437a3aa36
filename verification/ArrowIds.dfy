/** Conversion of a schema to Arrow, which numbers every field, struct member and
    list element (`control_plane/src/schema_massager.rs`, `to_arrow_*`). */
module ArrowIds {
  import opened Prelude
  import opened Schemas

  datatype ArrowType =
    | ArrowBoolean
    | ArrowFloat64
    | ArrowInt64
    | ArrowUtf8
    | ArrowList(item: ArrowField)
    | ArrowStruct(fields: seq<ArrowField>)

  /** `id` is the value stored under the Parquet field-id metadata key. */
  datatype ArrowField = ArrowField(name: string, dataType: ArrowType, id: nat)

  function ArrowName(f: ArrowField): string { f.name }

  /** Every id inside a type. */
  ghost function Ids(t: ArrowType): multiset<nat> {
    match t
    case ArrowList(f) => FieldIds(f)
    case ArrowStruct(fs) => IdsOfFields(fs)
    case _ => multiset{}
  }

  ghost function FieldIds(f: ArrowField): multiset<nat> {
    Ids(f.dataType) + multiset{f.id}
  }

  ghost function IdsOfFields(fs: seq<ArrowField>): multiset<nat> {
    if |fs| == 0 then multiset{} else IdsOfFields(fs[..|fs| - 1]) + FieldIds(fs[|fs| - 1])
  }

  /** The ids `lo`, ..., `hi - 1`, each once. */
  ghost function Range(lo: nat, hi: nat): multiset<nat> {
    if lo >= hi then multiset{} else Range(lo, hi - 1) + multiset{hi - 1}
  }

  lemma {:induction false} RangeOnce(lo: nat, hi: nat, x: nat)
    ensures Range(lo, hi)[x] == if lo <= x < hi then 1 else 0
  {
    if lo < hi { RangeOnce(lo, hi - 1, x); }
  }

  lemma {:induction false} RangeSize(lo: nat, hi: nat)
    requires lo <= hi
    ensures |Range(lo, hi)| == hi - lo
  {
    if lo < hi { RangeSize(lo, hi - 1); }
  }

  lemma RangeJoin(lo: nat, mid: nat, hi: nat)
    requires lo <= mid <= hi
    ensures Range(lo, mid) + Range(mid, hi) == Range(lo, hi)
  {
    forall x: nat
      ensures (Range(lo, mid) + Range(mid, hi))[x] == Range(lo, hi)[x]
    {
      RangeOnce(lo, mid, x);
      RangeOnce(mid, hi, x);
      RangeOnce(lo, hi, x);
    }
  }

  lemma IdsAppend(fs: seq<ArrowField>, f: ArrowField)
    ensures IdsOfFields(fs + [f]) == IdsOfFields(fs) + FieldIds(f)
  {
    assert (fs + [f])[..|fs|] == fs;
  }

  lemma {:induction false} IdsOfFieldsInsert(fs: seq<ArrowField>, f: ArrowField)
    ensures IdsOfFields(Insert(fs, f, ArrowName)) == IdsOfFields(fs) + FieldIds(f)
  {
    if |fs| == 0 || !Less(ArrowName(f), ArrowName(fs[|fs| - 1])) {
      IdsAppend(fs, f);
    } else {
      var m := |fs| - 1;
      var r := Insert(fs[..m], f, ArrowName);
      calc {
        IdsOfFields(Insert(fs, f, ArrowName));
        IdsOfFields(r + [fs[m]]);
        { IdsAppend(r, fs[m]); }
        IdsOfFields(r) + FieldIds(fs[m]);
        { IdsOfFieldsInsert(fs[..m], f); }
        IdsOfFields(fs[..m]) + FieldIds(f) + FieldIds(fs[m]);
        { assert fs == fs[..m] + [fs[m]]; IdsAppend(fs[..m], fs[m]); }
        IdsOfFields(fs) + FieldIds(f);
      }
    }
  }

  lemma {:induction false} IdsOfFieldsSort(fs: seq<ArrowField>)
    ensures IdsOfFields(SortBy(fs, ArrowName)) == IdsOfFields(fs)
  {
    if |fs| != 0 {
      var m := |fs| - 1;
      IdsOfFieldsSort(fs[..m]);
      IdsOfFieldsInsert(SortBy(fs[..m], ArrowName), fs[m]);
    }
  }

  /** The Arrow type stands for the schema type: same nesting, same member names. */
  ghost predicate Represents(a: ArrowType, t: DataType)
    decreases t, 0
  {
    match t
    case Array(e) => a.ArrowList? && a.item.name == "value" && Represents(a.item.dataType, e)
    case Boolean => a == ArrowBoolean
    case Float => a == ArrowFloat64
    case Integer => a == ArrowInt64
    case Object(s) => a.ArrowStruct? && RepresentsAll(a.fields, s)
    case Null => a == ArrowUtf8
    case String => a == ArrowUtf8
  }

  ghost predicate RepresentsAll(fs: seq<ArrowField>, s: Schema)
    decreases s, 0
  {
    && |fs| == |s.fields|
    && SortedBy(fs, ArrowName)
    && forall i :: 0 <= i < |s.fields| ==> HasMember(fs, s.fields[i].name, s.fields[i].dataType)
  }

  ghost predicate HasMember(fs: seq<ArrowField>, n: string, t: DataType)
    decreases t, 1
  {
    exists f :: f in fs && f.name == n && Represents(f.dataType, t)
  }

  function ScalarType(t: DataType): ArrowType {
    match t
    case Boolean => ArrowBoolean
    case Float => ArrowFloat64
    case Integer => ArrowInt64
    case _ => ArrowUtf8
  }

  lemma ScalarMeans(t: DataType, index: nat)
    requires !t.Array? && !t.Object?
    ensures Represents(ScalarType(t), t) && Ids(ScalarType(t)) == Range(index, index)
  {
  }

  lemma ListMeans(e: DataType, element: ArrowType, index: nat, n: nat)
    requires index <= n && Ids(element) == Range(index, n) && Represents(element, e)
    ensures var a := ArrowList(ArrowField("value", element, n));
            Represents(a, Array(e)) && Ids(a) == Range(index, n + 1)
  {
    assert FieldIds(ArrowField("value", element, n)) == Range(index, n) + multiset{n};
  }

  lemma StructMeans(s: Schema, fields: seq<ArrowField>)
    requires RepresentsAll(fields, s)
    ensures Represents(ArrowStruct(fields), Object(s)) && Ids(ArrowStruct(fields)) == IdsOfFields(fields)
  {
  }

  /** `to_arrow_type`: the ids handed out are exactly `index .. next - 1`. */
  method ToArrowType(t: DataType, index: nat) returns (a: ArrowType, next: nat)
    requires index > 0
    ensures index <= next && Ids(a) == Range(index, next)
    ensures Represents(a, t)
    decreases t, 0
  {
    match t {
      case Array(e) =>
        var element, n := ToArrowType(e, index);
        a, next := ArrowList(ArrowField("value", element, n)), n + 1;
        ListMeans(e, element, index, n);
      case Object(s) =>
        var fields, n := ToArrowFieldsInternal(s, index);
        a, next := ArrowStruct(fields), n;
        StructMeans(s, fields);
      case _ =>
        a, next := ScalarType(t), index;
        ScalarMeans(t, index);
    }
  }

  /** `to_arrow_field`: a field's own id comes after those of everything inside it. */
  method ToArrowField(f: Field, index: nat) returns (a: ArrowField, next: nat)
    requires index > 0
    ensures index < next && FieldIds(a) == Range(index, next) && a.id == next - 1
    ensures a.name == f.name && Represents(a.dataType, f.dataType)
    decreases f, 0
  {
    assert index > 0;
    var t, n := ToArrowType(f.dataType, index);
    a, next := ArrowField(f.name, t, n), n + 1;
  }

  /** `to_arrow_fields_internal`. */
  method ToArrowFieldsInternal(s: Schema, index: nat) returns (fields: seq<ArrowField>, next: nat)
    requires index > 0
    ensures index <= next && IdsOfFields(fields) == Range(index, next)
    ensures RepresentsAll(fields, s)
    ensures next >= index + |s.fields|
    decreases s, 0
  {
    fields, next := [], index;
    var k := 0;
    while k < |s.fields|
      invariant k <= |s.fields| && |fields| == k && next >= index + k
      invariant IdsOfFields(fields) == Range(index, next)
      invariant forall i :: 0 <= i < k ==>
                  fields[i].name == s.fields[i].name && Represents(fields[i].dataType, s.fields[i].dataType)
    {
      var field, returned := ToArrowField(s.fields[k], next);
      assert returned > next;
      RangeJoin(index, next, returned);
      IdsAppend(fields, field);
      next := returned;
      fields := fields + [field];
      k := k + 1;
    }
    SortBySorts(fields, ArrowName);
    IdsOfFieldsSort(fields);
    ghost var unsorted := fields;
    fields := SortBy(fields, ArrowName);
    assert |fields| == |multiset(fields)| == |multiset(unsorted)| == |unsorted|;
    forall i | 0 <= i < |s.fields|
      ensures HasMember(fields, s.fields[i].name, s.fields[i].dataType)
    {
      assert unsorted[i] in multiset(unsorted);
      assert unsorted[i] in fields;
    }
  }

  /** `to_arrow_fields`: ids start at 1 and are unique and dense over the whole schema. */
  method ToArrowFields(s: Schema) returns (fields: seq<ArrowField>)
    ensures RepresentsAll(fields, s)
    ensures IdsOfFields(fields) == Range(1, 1 + |IdsOfFields(fields)|)
  {
    var next;
    fields, next := ToArrowFieldsInternal(s, 1);
    RangeSize(1, next);
  }
}
