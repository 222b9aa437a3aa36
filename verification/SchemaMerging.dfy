/** Order independence of schema merging, and the in-place merge of `PowdrrSchema`. */
module SchemaMerging {
  import opened Prelude
  import opened Schemas

  /** Each schema says no more than the other: same names, equivalent types. */
  predicate Equivalent(s: Schema, r: Schema) {
    LeqSchema(s, r) && LeqSchema(r, s)
  }

  predicate IsFlatType(t: DataType) { !t.Object? && !(t.Array? && t.element.Object?) }

  /** No field holds another schema. */
  predicate IsFlat(s: Schema) {
    forall i :: 0 <= i < |s.fields| ==> IsFlatType(s.fields[i].dataType)
  }

  // ------------------------------------------------------------ idempotence

  lemma {:induction false} MergeTypeSelf(t: DataType)
    requires WellFormed(t)
    ensures MergeType(t, t) == Some(t)
    decreases t
  {
    if t.Object? {
      MergeFromSelf(t.schema);
    } else if t.Array? && t.element.Object? {
      MergeFromSelf(t.element.schema);
    }
  }

  lemma {:induction false} MergeFieldsSelf(s: Schema, k: nat)
    requires WellFormedSchema(s) && k <= |s.fields|
    ensures MergeFields(s.fields, s.fields, s, k) == Some(s.fields)
    decreases s, |s.fields| - k
  {
    if k < |s.fields| {
      GetAt(s.fields, k);
      MergeTypeSelf(s.fields[k].dataType);
      assert First(s.fields, s.fields[k].name) == k;
      assert SetType(s.fields, s.fields[k].name, s.fields[k].dataType) == s.fields;
      MergeFieldsSelf(s, k + 1);
    }
  }

  /** Merging a schema with itself changes nothing, not even the order of its fields. */
  lemma {:induction false} MergeFromSelf(s: Schema)
    requires WellFormedSchema(s)
    ensures MergeFrom(s, s) == Some(s)
    decreases s, |s.fields| + 1
  {
    MergeFieldsSelf(s, 0);
  }

  // ------------------------------------------------------------- merge_all

  /** The loop of `merge_all`. */
  function MergeEach(a: seq<Schema>): Option<Schema>
    requires |a| > 0
  {
    if |a| == 1 then Some(a[0])
    else
      match MergeEach(a[..|a| - 1])
      case None => None
      case Some(m) => MergeFrom(m, a[|a| - 1])
  }

  predicate Bounds(c: Schema, a: seq<Schema>) {
    forall i :: 0 <= i < |a| ==> LeqSchema(a[i], c)
  }

  predicate AllWellFormed(a: seq<Schema>) {
    forall i :: 0 <= i < |a| ==> WellFormedSchema(a[i])
  }

  lemma {:induction false} MergeEachUpper(a: seq<Schema>)
    requires |a| > 0 && AllWellFormed(a) && MergeEach(a).Some?
    ensures WellFormedSchema(MergeEach(a).value) && Bounds(MergeEach(a).value, a)
  {
    if |a| == 1 {
      LeqReflexive(Object(a[0]));
    } else {
      var n := |a| - 1;
      MergeEachUpper(a[..n]);
      var m := MergeEach(a[..n]).value;
      MergeFromKeepsWellFormed(m, a[n]);
      MergeFromUpper(m, a[n]);
      forall i | 0 <= i < |a|
        ensures LeqSchema(a[i], MergeEach(a).value)
      {
        if i < n { LeqSchemaTransitive(a[..n][i], m, MergeEach(a).value); }
      }
    }
  }

  lemma {:induction false} MergeEachLeast(a: seq<Schema>, c: Schema)
    requires |a| > 0 && AllWellFormed(a) && WellFormedSchema(c) && Bounds(c, a)
    ensures MergeEach(a).Some? && LeqSchema(MergeEach(a).value, c)
  {
    if |a| > 1 {
      var n := |a| - 1;
      assert Bounds(c, a[..n]);
      MergeEachLeast(a[..n], c);
      MergeEachUpper(a[..n]);
      MergeFromLeast(MergeEach(a[..n]).value, a[n], c);
    }
  }

  /** Merging is defined exactly on the lists that have a common upper bound. */
  lemma MergeEachDefined(a: seq<Schema>)
    requires |a| > 0 && AllWellFormed(a)
    ensures MergeEach(a).Some? <==> exists c :: WellFormedSchema(c) && Bounds(c, a)
  {
    if MergeEach(a).Some? {
      MergeEachUpper(a);
    }
    if c :| WellFormedSchema(c) && Bounds(c, a) {
      MergeEachLeast(a, c);
    }
  }

  lemma BoundsReorder(c: Schema, a: seq<Schema>, b: seq<Schema>)
    requires multiset(a) == multiset(b)
    requires Bounds(c, a)
    ensures Bounds(c, b)
  {
    forall i | 0 <= i < |b|
      ensures LeqSchema(b[i], c)
    {
      assert b[i] in multiset(b);
      assert b[i] in a;
    }
  }

  lemma WellFormedReorder(a: seq<Schema>, b: seq<Schema>)
    requires multiset(a) == multiset(b) && AllWellFormed(a)
    ensures AllWellFormed(b)
  {
    forall i | 0 <= i < |b|
      ensures WellFormedSchema(b[i])
    {
      assert b[i] in multiset(b);
      assert b[i] in a;
    }
  }

  /** Any order of the same schemas merges, or none does, and the results say the same. */
  lemma MergeEachAnyOrder(a: seq<Schema>, b: seq<Schema>)
    requires |a| > 0 && |b| > 0 && multiset(a) == multiset(b) && AllWellFormed(a)
    ensures AllWellFormed(b)
    ensures MergeEach(a).Some? <==> MergeEach(b).Some?
    ensures MergeEach(a).Some? ==> Equivalent(MergeEach(a).value, MergeEach(b).value)
  {
    WellFormedReorder(a, b);
    if MergeEach(a).Some? { MergeEachBelow(b, a); }
    if MergeEach(b).Some? { MergeEachBelow(a, b); }
  }

  lemma MergeEachBelow(a: seq<Schema>, b: seq<Schema>)
    requires |a| > 0 && |b| > 0 && multiset(a) == multiset(b) && AllWellFormed(a) && AllWellFormed(b)
    requires MergeEach(b).Some?
    ensures MergeEach(a).Some? && LeqSchema(MergeEach(a).value, MergeEach(b).value)
  {
    MergeEachUpper(b);
    BoundsReorder(MergeEach(b).value, b, a);
    MergeEachLeast(a, MergeEach(b).value);
  }

  // ---------------------------------------------------------------- sorting

  function NameOf(f: Field): string { f.name }

  /** `merge_all`. */
  function MergeAll(a: seq<Schema>): Option<Schema>
    requires |a| > 0
  {
    match MergeEach(a)
    case None => None
    case Some(m) => Some(Schema(SortBy(m.fields, NameOf)))
  }

  lemma SortedNames(fs: seq<Field>)
    requires UniqueNames(fs)
    ensures UniqueNames(SortBy(fs, NameOf)) && SortedBy(SortBy(fs, NameOf), NameOf)
  {
    SortBySorts(fs, NameOf);
    assert UniqueBy(fs, NameOf);
    SortByUnique(fs, NameOf);
    assert UniqueBy(SortBy(fs, NameOf), NameOf);
  }

  /** Sorting changes the type of no name. */
  lemma SortedGet(fs: seq<Field>, n: string)
    requires UniqueNames(fs)
    ensures Get(SortBy(fs, NameOf), n) == Get(fs, n)
  {
    var s := SortBy(fs, NameOf);
    SortedNames(fs);
    if Get(fs, n).Some? {
      var i := GetIndex(fs, n);
      SortByMembers(fs, fs[i]);
      var j :| 0 <= j < |s| && s[j] == fs[i];
      GetAt(s, j);
    }
    if Get(s, n).Some? {
      var j := GetIndex(s, n);
      SortByMembers(fs, s[j]);
      var i :| 0 <= i < |fs| && fs[i] == s[j];
      GetAt(fs, i);
    }
  }

  lemma SortedWellFormed(m: Schema)
    requires WellFormedSchema(m)
    ensures WellFormedSchema(Schema(SortBy(m.fields, NameOf)))
  {
    var s := SortBy(m.fields, NameOf);
    SortedNames(m.fields);
    forall i | 0 <= i < |s|
      ensures WellFormed(s[i].dataType)
    {
      SortByMembers(m.fields, s[i]);
    }
  }

  /** A sorted schema is bounded by what bounds the schema, and bounds what the schema bounds. */
  lemma SortedBounds(m: Schema, c: Schema)
    requires UniqueNames(m.fields)
    ensures LeqSchema(c, Schema(SortBy(m.fields, NameOf))) <==> LeqSchema(c, m)
    ensures LeqSchema(Schema(SortBy(m.fields, NameOf)), c) <==> LeqSchema(m, c)
  {
    var s := Schema(SortBy(m.fields, NameOf));
    forall i | 0 <= i < |c.fields|
      ensures Get(s.fields, c.fields[i].name) == Get(m.fields, c.fields[i].name)
    {
      SortedGet(m.fields, c.fields[i].name);
    }
    if LeqSchema(m, c) {
      forall i | 0 <= i < |s.fields|
        ensures LeqAt(s.fields[i], c)
      {
        SortByMembers(m.fields, s.fields[i]);
        var j :| 0 <= j < |m.fields| && m.fields[j] == s.fields[i];
      }
    }
    if LeqSchema(s, c) {
      forall i | 0 <= i < |m.fields|
        ensures LeqAt(m.fields[i], c)
      {
        SortByMembers(m.fields, m.fields[i]);
        var j :| 0 <= j < |s.fields| && s.fields[j] == m.fields[i];
      }
    }
  }

  predicate LeqAt(f: Field, c: Schema) {
    Get(c.fields, f.name).Some? && Leq(f.dataType, Get(c.fields, f.name).value)
  }

  /** `merge_all` succeeds exactly on lists that have a common upper bound, and then returns one, with its fields
      sorted by name and no name twice. */
  lemma MergeAllUpper(a: seq<Schema>)
    requires |a| > 0 && AllWellFormed(a)
    ensures MergeAll(a).Some? <==> exists c :: WellFormedSchema(c) && Bounds(c, a)
    ensures MergeAll(a).Some? ==>
              var r := MergeAll(a).value;
              WellFormedSchema(r) && SortedBy(r.fields, NameOf) && Bounds(r, a)
  {
    MergeEachDefined(a);
    if MergeEach(a).Some? {
      MergeEachUpper(a);
      var m := MergeEach(a).value;
      SortedWellFormed(m);
      SortedNames(m.fields);
      forall i | 0 <= i < |a|
        ensures LeqSchema(a[i], MergeAll(a).value)
      {
        SortedBounds(m, a[i]);
      }
    }
  }

  /** It lies below every common upper bound. */
  lemma MergeAllLeast(a: seq<Schema>, c: Schema)
    requires |a| > 0 && AllWellFormed(a) && WellFormedSchema(c) && Bounds(c, a)
    ensures MergeAll(a).Some? && LeqSchema(MergeAll(a).value, c)
  {
    MergeEachLeast(a, c);
    MergeEachUpper(a);
    SortedBounds(MergeEach(a).value, c);
  }

  lemma {:induction false} SortedListsEqual(a: seq<Field>, b: seq<Field>)
    requires UniqueBy(a, NameOf) && UniqueBy(b, NameOf) && SortedBy(a, NameOf) && SortedBy(b, NameOf)
    requires forall f :: f in a <==> f in b
    ensures a == b
    decreases |a|
  {
    if |a| == 0 {
      if |b| != 0 { HeadIn(b); }
    } else if |b| == 0 {
      HeadIn(a);
    } else {
      var i, j := |a| - 1, |b| - 1;
      assert a[i] in b && b[j] in a;
      LastIsGreatest(a, b[j]);
      LastIsGreatest(b, a[i]);
      LessAsymmetric(a[i].name, b[j].name);
      forall f
        ensures f in a[..i] <==> f in b[..j]
      {
        assert f in a <==> f in a[..i] || f == a[i];
        assert f in b <==> f in b[..j] || f == b[j];
      }
      SortedListsEqual(a[..i], b[..j]);
      assert a == a[..i] + [a[i]] && b == b[..j] + [b[j]];
    }
  }

  lemma LastIsGreatest(a: seq<Field>, f: Field)
    requires UniqueBy(a, NameOf) && SortedBy(a, NameOf) && f in a
    ensures f == a[|a| - 1] || Less(f.name, a[|a| - 1].name)
  {
    var k :| 0 <= k < |a| && a[k] == f;
    if k < |a| - 1 {
      assert a[k].name != a[|a| - 1].name;
      LessTotal(f.name, a[|a| - 1].name);
    }
  }

  lemma FlatLeq(s: Schema, r: Schema, f: Field)
    requires WellFormedSchema(s) && WellFormedSchema(r) && Equivalent(s, r) && IsFlat(s) && f in s.fields
    ensures f in r.fields
  {
    var i :| 0 <= i < |s.fields| && s.fields[i] == f;
    var j := GetIndex(r.fields, f.name);
    assert Leq(f.dataType, r.fields[j].dataType);
    assert Get(s.fields, r.fields[j].name).Some? && Leq(r.fields[j].dataType, Get(s.fields, f.name).value);
    GetAt(s.fields, i);
    assert f == r.fields[j];
  }

  /** `merge_all` of flat schemas returns the identical field list for every order of its input. */
  lemma MergeAllFlatAnyOrder(a: seq<Schema>, b: seq<Schema>)
    requires |a| > 0 && |b| > 0 && multiset(a) == multiset(b) && AllWellFormed(a)
    requires forall i :: 0 <= i < |a| ==> IsFlat(a[i])
    ensures MergeAll(a) == MergeAll(b)
  {
    MergeEachAnyOrder(a, b);
    if MergeEach(a).Some? {
      var s, r := MergeEach(a).value, MergeEach(b).value;
      MergeEachUpper(a);
      MergeEachUpper(b);
      FlatReorder(a, b);
      MergeEachFlat(a);
      MergeEachFlat(b);
      FlatSorted(s, r);
    }
  }

  lemma FlatReorder(a: seq<Schema>, b: seq<Schema>)
    requires multiset(a) == multiset(b) && forall i :: 0 <= i < |a| ==> IsFlat(a[i])
    ensures forall i :: 0 <= i < |b| ==> IsFlat(b[i])
  {
    forall i | 0 <= i < |b|
      ensures IsFlat(b[i])
    {
      assert b[i] in multiset(b);
      assert b[i] in a;
    }
  }

  lemma SortByMembers(fs: seq<Field>, f: Field)
    ensures f in SortBy(fs, NameOf) <==> f in fs
  {
    SortBySorts(fs, NameOf);
    assert f in SortBy(fs, NameOf) <==> f in multiset(SortBy(fs, NameOf));
    assert f in fs <==> f in multiset(fs);
  }

  /** Equivalent flat schemas sort to the same list. */
  lemma FlatSorted(s: Schema, r: Schema)
    requires WellFormedSchema(s) && WellFormedSchema(r) && Equivalent(s, r) && IsFlat(s) && IsFlat(r)
    ensures SortBy(s.fields, NameOf) == SortBy(r.fields, NameOf)
  {
    SortBySorts(s.fields, NameOf);
    SortBySorts(r.fields, NameOf);
    SortByUnique(s.fields, NameOf);
    SortByUnique(r.fields, NameOf);
    forall f
      ensures f in SortBy(s.fields, NameOf) <==> f in SortBy(r.fields, NameOf)
    {
      SortByMembers(s.fields, f);
      SortByMembers(r.fields, f);
      if f in s.fields { FlatLeq(s, r, f); }
      if f in r.fields { FlatLeq(r, s, f); }
    }
    SortedListsEqual(SortBy(s.fields, NameOf), SortBy(r.fields, NameOf));
  }

  lemma {:induction false} MergeEachFlat(a: seq<Schema>)
    requires |a| > 0 && AllWellFormed(a) && MergeEach(a).Some?
    requires forall i :: 0 <= i < |a| ==> IsFlat(a[i])
    ensures IsFlat(MergeEach(a).value)
  {
    if |a| > 1 {
      var n := |a| - 1;
      MergeEachFlat(a[..n]);
      MergeEachUpper(a[..n]);
      var m, o := MergeEach(a[..n]).value, a[n];
      MergeFromMeaning(m, o);
      var r := MergeFrom(m, o).value;
      forall i | 0 <= i < |r.fields|
        ensures IsFlatType(r.fields[i].dataType)
      {
        GetAt(r.fields, i);
        var x := r.fields[i].name;
        assert Get(r.fields, x) == Joined(m.fields, o.fields, x);
        if Get(m.fields, x).Some? { var p := GetIndex(m.fields, x); }
        if Get(o.fields, x).Some? { var q := GetIndex(o.fields, x); }
      }
    }
  }

  // --------------------------------------------------------- in-place merge

  /** `PowdrrSchema` as the source holds it: a field list that `merge_from` changes in place. */
  class PowdrrSchema {
    var fields: seq<Field>

    constructor (s: Schema)
      ensures fields == s.fields
    {
      fields := s.fields;
    }

    /** `merge_from`; `ok` is false where the source aborts. */
    method MergeInPlace(other: Schema) returns (ok: bool)
      modifies this
      ensures ok <==> MergeFrom(Schema(old(fields)), other).Some?
      ensures ok ==> Schema(fields) == MergeFrom(Schema(old(fields)), other).value
      decreases other, 1
    {
      var selfMap := fields;
      var k := 0;
      while k < |other.fields|
        invariant k <= |other.fields|
        invariant MergeFields(selfMap, selfMap, other, 0) == MergeFields(selfMap, fields, other, k)
      {
        var f := other.fields[k];
        match Get(selfMap, f.name) {
          case Some(t) =>
            var outcome := MergeOneField(t, f.dataType);
            if outcome.TypeChange? { return false; }
            if outcome.Replace? {
              var p := First(fields, f.name);
              if p < |fields| {
                fields := fields[p := Field(f.name, outcome.dataType)];
              }
            }
          case None =>
            fields := fields + [f];
        }
        k := k + 1;
      }
      ok := true;
    }

    /** `merge_field`: nested objects are merged in a copy of the existing schema. */
    static method MergeOneField(t: DataType, u: DataType) returns (r: MergeOutcome)
      ensures r == MergeField(t, u)
      decreases u, 0
    {
      if u.Null? { return Keep; }
      if t.Null? { return Replace(u); }
      if u.Object? && t.Object? {
        var copy := new PowdrrSchema(t.schema);
        var ok := copy.MergeInPlace(u.schema);
        return if ok then Replace(Object(Schema(copy.fields))) else TypeChange;
      }
      if u.Array? && t.Array? {
        if u.element.Null? { return Keep; }
        if t.element.Null? { return Replace(u); }
        if u.element.Object? && t.element.Object? {
          var copy := new PowdrrSchema(t.element.schema);
          var ok := copy.MergeInPlace(u.element.schema);
          return if ok then Replace(Array(Object(Schema(copy.fields)))) else TypeChange;
        }
        return if t.element != u.element then TypeChange else Keep;
      }
      return if t != u then TypeChange else Keep;
    }
  }
}
