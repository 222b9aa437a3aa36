/** Checkpoint names (`control_plane/src/checkpoint_descriptor.rs`) and the keys of the
    latest pointers (`query_runtime/src/dynamodb_service_impl.rs`). */
module Descriptors {
  import opened Prelude

  datatype Descriptor = Descriptor(tableName: string, checkpointId: string, originalId: Option<string>)

  predicate ColonFree(s: string) { ':' !in s }

  function FullCheckpointId(d: Descriptor): string {
    match d.originalId
    case Some(o) => o + ":" + d.checkpointId
    case None => d.checkpointId
  }

  function FullName(d: Descriptor): string {
    d.tableName + ":" + FullCheckpointId(d)
  }

  /** `split(':')`. */
  function Split(s: string): (parts: seq<string>)
    ensures |parts| >= 1
  {
    if |s| == 0 then [""]
    else if s[0] == ':' then [""] + Split(s[1..])
    else
      var rest := Split(s[1..]);
      [[s[0]] + rest[0]] + rest[1..]
  }

  /** `from_full_name`; `None` where the source aborts. */
  function FromFullName(name: string): Option<Descriptor> {
    var parts := Split(name);
    if |parts| == 2 then Some(Descriptor(parts[0], parts[1], None))
    else if |parts| == 3 then Some(Descriptor(parts[0], parts[2], Some(parts[1])))
    else None
  }

  lemma {:induction false} SplitParts(s: string)
    ensures forall i :: 0 <= i < |Split(s)| ==> ColonFree(Split(s)[i])
  {
    if |s| != 0 { SplitParts(s[1..]); }
  }

  lemma {:induction false} SplitPlain(a: string)
    requires ColonFree(a)
    ensures Split(a) == [a]
  {
    if |a| != 0 {
      assert a[0] in a;
      SplitPlain(a[1..]);
      assert a == [a[0]] + a[1..];
    }
  }

  lemma {:induction false} SplitAt(a: string, b: string)
    requires ColonFree(a)
    ensures Split(a + ":" + b) == [a] + Split(b)
  {
    var s := a + ":" + b;
    if |a| == 0 {
      assert s[1..] == b;
    } else {
      assert a[0] in a;
      assert s[1..] == a[1..] + ":" + b;
      SplitAt(a[1..], b);
      assert a == [a[0]] + a[1..];
    }
  }

  function Join(parts: seq<string>): string
    requires |parts| >= 1
  {
    if |parts| == 1 then parts[0] else parts[0] + ":" + Join(parts[1..])
  }

  lemma {:induction false} JoinSplit(s: string)
    ensures Join(Split(s)) == s
  {
    if |s| != 0 {
      JoinSplit(s[1..]);
      var rest := Split(s[1..]);
      assert s == [s[0]] + s[1..];
      if s[0] == ':' {
        assert ([""] + rest)[1..] == rest;
      } else if |rest| > 1 {
        assert ([[s[0]] + rest[0]] + rest[1..])[1..] == rest[1..];
      }
    }
  }

  predicate PartsColonFree(d: Descriptor) {
    ColonFree(d.tableName) && ColonFree(d.checkpointId) && (d.originalId.Some? ==> ColonFree(d.originalId.value))
  }

  /** A name reads back as the descriptor it was printed from exactly when no part holds a colon. */
  lemma RoundTrip(d: Descriptor)
    ensures FromFullName(FullName(d)) == Some(d) <==> PartsColonFree(d)
  {
    if PartsColonFree(d) {
      SplitAt(d.tableName, FullCheckpointId(d));
      SplitPlain(d.checkpointId);
      if d.originalId.Some? {
        SplitAt(d.originalId.value, d.checkpointId);
      }
    }
    SplitParts(FullName(d));
  }

  lemma FromFullNamePrints(name: string)
    requires FromFullName(name).Some?
    ensures FullName(FromFullName(name).value) == name && PartsColonFree(FromFullName(name).value)
  {
    JoinSplit(name);
    SplitParts(name);
    var p := Split(name);
    assert Join(p[1..]) == if |p| == 2 then p[1] else p[1] + ":" + p[2] by {
      if |p| == 3 { assert p[1..][1..] == [p[2]]; }
    }
  }

  /** Publishing: `get_checkpoint_id_from_latest_key` flattens a name to an id and
      `set_active_checkpoint_id` builds a name from it again. */
  function Republish(table: string, name: string): Option<string> {
    match FromFullName(name)
    case None => None
    case Some(d) => Some(FullName(Descriptor(table, FullCheckpointId(d), None)))
  }

  /** The rebuilt name is the original one exactly when it is rebuilt for the name's own table. */
  lemma RepublishSame(table: string, name: string)
    requires FromFullName(name).Some?
    ensures Republish(table, name) == Some(name) <==> table == FromFullName(name).value.tableName
  {
    FromFullNamePrints(name);
    var d := FromFullName(name).value;
    var rest := ":" + FullCheckpointId(d);
    assert name == d.tableName + rest;
    assert Republish(table, name).value == table + rest;
    if table + rest == d.tableName + rest {
      assert |table| == |d.tableName|;
      assert (table + rest)[..|table|] == table;
      assert (d.tableName + rest)[..|table|] == d.tableName;
    }
  }

  // ------------------------------------------------------------ pointer keys

  /** `latest_checkpoint_key`. */
  function LatestCheckpointKey(table: string, ext: Option<string>): string {
    match ext
    case Some(x) => "checkpoint#" + table + "#" + x
    case None => "checkpoint#" + table
  }

  /** The standard pointer of one table is the record of another table's extension pointer exactly
      when its name spells that table and extension. */
  lemma LatestKeysCollide(t: string, u: string, x: string)
    ensures LatestCheckpointKey(t, None) == LatestCheckpointKey(u, Some(x)) <==> t == u + "#" + x
  {
    var p := "checkpoint#";
    assert LatestCheckpointKey(u, Some(x)) == p + (u + "#" + x);
    assert (p + t)[|p|..] == t;
    assert (p + (u + "#" + x))[|p|..] == u + "#" + x;
  }

  /** The same spelling read with a longer table name and a shorter extension. */
  predicate Regrouped(t: string, x: string, u: string, y: string) {
    |u| < |t| && u + "#" == t[..|u| + 1] && y == t[|u| + 1..] + "#" + x
  }

  /** Two extension pointers are one record exactly when they are the same, or a "#" in a table name or an
      extension lets one be read as the other. */
  lemma ExtensionKeysCollide(t: string, x: string, u: string, y: string)
    ensures LatestCheckpointKey(t, Some(x)) == LatestCheckpointKey(u, Some(y)) <==>
            (t == u && x == y) || Regrouped(t, x, u, y) || Regrouped(u, y, t, x)
  {
    var p := "checkpoint#";
    assert LatestCheckpointKey(t, Some(x)) == p + (t + "#" + x) && LatestCheckpointKey(u, Some(y)) == p + (u + "#" + y);
    assert (p + (t + "#" + x))[|p|..] == t + "#" + x;
    assert (p + (u + "#" + y))[|p|..] == u + "#" + y;
    if |t| >= |u| { SpellingsSplit(t, x, u, y); } else { SpellingsSplit(u, y, t, x); }
  }

  lemma SpellingsSplit(t: string, x: string, u: string, y: string)
    requires |t| >= |u|
    ensures t + "#" + x == u + "#" + y <==> (t == u && x == y) || Regrouped(t, x, u, y)
  {
    var a, b := t + "#" + x, u + "#" + y;
    assert a[..|t|] == t && a[|t| + 1..] == x && b[..|u|] == u && b[|u| + 1..] == y && b[|u|] == '#';
    if |t| == |u| {
      assert a == b ==> t == u && x == y;
    } else {
      assert a[|u| + 1..] == t[|u| + 1..] + "#" + x;
      assert a[..|u| + 1] == t[..|u| + 1] && b[..|u| + 1] == u + "#";
      assert a == a[..|u| + 1] + a[|u| + 1..] && b == b[..|u| + 1] + b[|u| + 1..];
    }
  }

  /** Tables without "#" in their names never share a pointer. */
  lemma KeysApart(t: string, x: string, u: string, y: string)
    requires '#' !in t && '#' !in u
    ensures LatestCheckpointKey(t, Some(x)) == LatestCheckpointKey(u, Some(y)) <==> t == u && x == y
    ensures LatestCheckpointKey(t, None) != LatestCheckpointKey(u, Some(y))
  {
    ExtensionKeysCollide(t, x, u, y);
    LatestKeysCollide(t, u, y);
    if |u| < |t| { assert t[..|u| + 1][|u|] == t[|u|]; }
    if |t| < |u| { assert u[..|t| + 1][|t|] == u[|t|]; }
    assert (u + "#" + y)[|u|] == '#';
  }
}
