/** Compaction (`query_runtime/src/compaction.rs`): the rows of a work item move to one parquet file
    and its deletes are split into applied and remaining ones.  The theorems say exactly when the rows
    that a reader of the table sees do not change, whatever was committed since the item was made. */
module CompactionRows {
  import opened Prelude
  import opened FileSets
  import opened Checkpoints
  import opened Protocol
  import opened ExactlyOnce

  /** `key` is `_id_seq_no`; `hasId` says that `_id` is not null. */
  datatype Row = Row(key: string, hasId: bool, body: string)

  /** What the files hold; files are written once. */
  datatype Files = Files(rows: map<string, seq<Row>>, deletes: map<string, seq<string>>)

  function RowsIn(f: Files, path: string): multiset<Row> {
    if path in f.rows then multiset(f.rows[path]) else multiset{}
  }

  function AllRows(f: Files, fs: seq<FileDesc>): multiset<Row> {
    if |fs| == 0 then multiset{} else AllRows(f, fs[..|fs| - 1]) + RowsIn(f, fs[|fs| - 1].path)
  }

  function KeysIn(f: Files, path: string): set<string> {
    if path in f.deletes then set k | k in f.deletes[path] else {}
  }

  function AllKeys(f: Files, ds: seq<string>): set<string> {
    if |ds| == 0 then {} else AllKeys(f, ds[..|ds| - 1]) + KeysIn(f, ds[|ds| - 1])
  }

  function TableRows(f: Files, c: Checkpoint): multiset<Row> {
    AllRows(f, IcebergFiles(c)) + AllRows(f, SpeedboatFiles(c))
  }

  /** How often a reader of the checkpoint sees a row: deleted keys hide it. */
  function Visible(f: Files, c: Checkpoint, r: Row): nat {
    if r.key in AllKeys(f, DeleteFiles(c)) then 0 else TableRows(f, c)[r]
  }

  /** Readers of `c` over files `f` and of `d` over files `g` see the same rows. */
  ghost predicate SameView(f: Files, c: Checkpoint, g: Files, d: Checkpoint) {
    forall r :: Visible(g, d, r) == Visible(f, c, r)
  }

  ghost predicate UniqueKeys(m: multiset<Row>) {
    && (forall r :: r in m ==> m[r] == 1)
    && (forall r, s :: r in m && s in m && r.key == s.key ==> r == s)
  }

  // --------------------------------------------------------- rows and keys

  lemma {:induction false} AllRowsConcat(f: Files, a: seq<FileDesc>, b: seq<FileDesc>)
    ensures AllRows(f, a + b) == AllRows(f, a) + AllRows(f, b)
  {
    if |b| == 0 {
      assert a + b == a;
    } else {
      var m := |b| - 1;
      var s, last := AllRows(f, b[..m]), RowsIn(f, b[m].path);
      AllRowsConcat(f, a, b[..m]);
      assert (a + b)[..|a + b| - 1] == a + b[..m] && (a + b)[|a + b| - 1] == b[m];
      assert AllRows(f, a + b) == (AllRows(f, a) + s) + last;
      assert AllRows(f, b) == s + last;
    }
  }

  lemma AllRowsOne(f: Files, d: FileDesc)
    ensures AllRows(f, [d]) == RowsIn(f, d.path)
  {
    assert [d][..0] == [];
  }

  lemma AllRowsWithout(f: Files, b: seq<FileDesc>, i: nat)
    requires i < |b|
    ensures AllRows(f, b) == AllRows(f, b[..i] + b[i + 1..]) + RowsIn(f, b[i].path)
  {
    assert b == (b[..i] + [b[i]]) + b[i + 1..];
    AllRowsConcat(f, b[..i] + [b[i]], b[i + 1..]);
    AllRowsConcat(f, b[..i], [b[i]]);
    AllRowsConcat(f, b[..i], b[i + 1..]);
    AllRowsOne(f, b[i]);
  }

  lemma WithoutElement<T>(b: seq<T>, i: nat)
    requires i < |b|
    ensures multiset(b[..i] + b[i + 1..]) == multiset(b) - multiset{b[i]}
  {
    assert b == b[..i] + [b[i]] + b[i + 1..];
  }

  lemma {:induction false} AllRowsPermutation(f: Files, a: seq<FileDesc>, b: seq<FileDesc>)
    requires multiset(a) == multiset(b)
    ensures AllRows(f, a) == AllRows(f, b)
    decreases |a|
  {
    if |a| == 0 {
      assert |multiset(b)| == 0;
    } else {
      var m := |a| - 1;
      assert a[m] in multiset(b);
      var i :| 0 <= i < |b| && b[i] == a[m];
      WithoutElement(a, m);
      WithoutElement(b, i);
      assert a[..m] + a[m + 1..] == a[..m];
      AllRowsPermutation(f, a[..m], b[..i] + b[i + 1..]);
      AllRowsWithout(f, b, i);
    }
  }

  lemma WithoutPaths(b: seq<FileDesc>, i: nat)
    requires i < |b| && UniquePaths(b)
    ensures UniquePaths(b[..i] + b[i + 1..]) && PathSet(b[..i] + b[i + 1..]) == PathSet(b) - {b[i].path}
  {
    var r := b[..i] + b[i + 1..];
    assert forall d :: d in r <==> exists j :: 0 <= j < |b| && j != i && b[j] == d;
    forall p
      ensures p in PathSet(r) <==> p in PathSet(b) && p != b[i].path
    {
      if p in PathSet(b) && p != b[i].path {
        var d :| d in b && d.path == p;
        assert d in r;
      }
    }
  }

  lemma HeadPath(b: seq<FileDesc>)
    requires |b| > 0
    ensures b[0].path in PathSet(b)
  {
  }

  /** Only the paths matter. */
  lemma {:induction false} AllRowsSame(f: Files, a: seq<FileDesc>, b: seq<FileDesc>)
    requires UniquePaths(a) && UniquePaths(b) && PathSet(a) == PathSet(b)
    ensures AllRows(f, a) == AllRows(f, b)
    decreases |a|
  {
    if |a| == 0 {
      if |b| != 0 { HeadPath(b); }
    } else {
      var m := |a| - 1;
      assert a[m].path in PathSet(a);
      var i :| 0 <= i < |b| && b[i].path == a[m].path;
      WithoutPaths(a, m);
      WithoutPaths(b, i);
      assert a[..m] + a[m + 1..] == a[..m];
      AllRowsSame(f, a[..m], b[..i] + b[i + 1..]);
      AllRowsWithout(f, b, i);
    }
  }

  lemma FilterRows(f: Files, fs: seq<FileDesc>, p: FileDesc -> bool)
    requires |fs| > 0
    ensures var m := |fs| - 1;
            AllRows(f, Filter(fs, p))
            == AllRows(f, Filter(fs[..m], p)) + if p(fs[m]) then RowsIn(f, fs[m].path) else multiset{}
  {
    var m := |fs| - 1;
    if p(fs[m]) {
      AllRowsConcat(f, Filter(fs[..m], p), [fs[m]]);
      AllRowsOne(f, fs[m]);
    }
  }

  lemma {:induction false} FilterSplit(f: Files, fs: seq<FileDesc>, ps: seq<string>)
    ensures AllRows(f, fs) == AllRows(f, RemoveFiles(fs, ps)) + AllRows(f, Filter(fs, (d: FileDesc) => Listed(ps, d)))
  {
    if |fs| != 0 {
      var m := |fs| - 1;
      var keep, drop := (d: FileDesc) => !Listed(ps, d), (d: FileDesc) => Listed(ps, d);
      FilterSplit(f, fs[..m], ps);
      FilterRows(f, fs, keep);
      FilterRows(f, fs, drop);
    }
  }

  lemma {:induction false} AllKeysIn(f: Files, ds: seq<string>, k: string)
    ensures k in AllKeys(f, ds) <==> exists d :: d in ds && k in KeysIn(f, d)
  {
    if |ds| != 0 {
      AllKeysIn(f, ds[..|ds| - 1], k);
      assert forall d :: d in ds <==> d in ds[..|ds| - 1] || d == ds[|ds| - 1];
    }
  }

  // ------------------------------------------------------ the full outer join

  datatype Joined = Joined(row: Option<Row>, key: Option<string>)

  function JoinRow(r: Row, keys: seq<string>): seq<Joined> {
    if |keys| == 0 then []
    else JoinRow(r, keys[..|keys| - 1]) + if keys[|keys| - 1] == r.key then [Joined(Some(r), Some(r.key))] else []
  }

  function JoinRows(rows: seq<Row>, keys: seq<string>): seq<Joined> {
    if |rows| == 0 then []
    else JoinRows(rows[..|rows| - 1], keys) + OuterRow(rows[|rows| - 1], keys)
  }

  function OuterRow(r: Row, keys: seq<string>): seq<Joined> {
    if r.key in keys then JoinRow(r, keys) else [Joined(Some(r), None)]
  }

  predicate HasKey(rows: seq<Row>, k: string) { exists i :: 0 <= i < |rows| && rows[i].key == k }

  function Unmatched(rows: seq<Row>, keys: seq<string>): seq<Joined> {
    if |keys| == 0 then []
    else Unmatched(rows, keys[..|keys| - 1]) +
         if HasKey(rows, keys[|keys| - 1]) then [] else [Joined(None, Some(keys[|keys| - 1]))]
  }

  /** One schema group of the item, full outer joined with the item's deletes. */
  function FullJoin(rows: seq<Row>, keys: seq<string>): seq<Joined> {
    JoinRows(rows, keys) + Unmatched(rows, keys)
  }

  /** Goes to the parquet file: a row with an id that no delete matches. */
  predicate Kept(j: Joined) { j.row.Some? && j.row.value.hasId && j.key.None? }

  /** Goes to the remaining deletes: a delete without a row, or one that matches a row without an id. */
  predicate Leftover(j: Joined) { (j.row.Some? ==> !j.row.value.hasId) && j.key.Some? }

  /** The rows written to the parquet file. */
  function Results(js: seq<Joined>): seq<Row> {
    if |js| == 0 then []
    else Results(js[..|js| - 1]) + if Kept(js[|js| - 1]) then [js[|js| - 1].row.value] else []
  }

  /** The keys written to the new delete segment. */
  function Remaining(js: seq<Joined>): set<string> {
    set j | j in js && Leftover(j) :: j.key.value
  }

  lemma {:induction false} ResultsConcat(a: seq<Joined>, b: seq<Joined>)
    ensures Results(a + b) == Results(a) + Results(b)
  {
    if |b| == 0 {
      assert a + b == a;
    } else {
      ResultsConcat(a, b[..|b| - 1]);
      assert (a + b)[..|a + b| - 1] == a + b[..|b| - 1];
    }
  }

  lemma {:induction false} NoResults(js: seq<Joined>)
    requires forall j :: j in js ==> j.key.Some?
    ensures Results(js) == []
  {
    if |js| != 0 { NoResults(js[..|js| - 1]); }
  }

  lemma {:induction false} JoinRowMeaning(r: Row, keys: seq<string>)
    ensures forall j :: j in JoinRow(r, keys) ==> j == Joined(Some(r), Some(r.key))
    ensures JoinRow(r, keys) != [] <==> r.key in keys
  {
    if |keys| != 0 { JoinRowMeaning(r, keys[..|keys| - 1]); }
  }

  lemma {:induction false} UnmatchedMeaning(rows: seq<Row>, keys: seq<string>)
    ensures forall j :: j in Unmatched(rows, keys) <==>
              j.row.None? && j.key.Some? && j.key.value in keys && !HasKey(rows, j.key.value)
  {
    if |keys| != 0 {
      UnmatchedMeaning(rows, keys[..|keys| - 1]);
      assert forall k :: k in keys <==> k in keys[..|keys| - 1] || k == keys[|keys| - 1];
    }
  }

  lemma CountConcat(a: seq<Row>, b: seq<Row>, r: Row)
    ensures multiset(a + b)[r] == multiset(a)[r] + multiset(b)[r]
  {
  }

  lemma RowResults(r: Row, keys: seq<string>)
    ensures Results(OuterRow(r, keys)) == if r.hasId && r.key !in keys then [r] else []
  {
    if r.key in keys {
      JoinRowMeaning(r, keys);
      NoResults(JoinRow(r, keys));
    } else {
      assert [Joined(Some(r), None)][..0] == [];
    }
  }

  /** The kept rows of a group are its rows with an id and no delete, each as often as it occurs. */
  lemma {:induction false} JoinRowsResults(rows: seq<Row>, keys: seq<string>, r: Row)
    ensures multiset(Results(JoinRows(rows, keys)))[r] == if r.hasId && r.key !in keys then multiset(rows)[r] else 0
  {
    if |rows| != 0 {
      var m := |rows| - 1;
      JoinRowsResults(rows[..m], keys, r);
      var a, b := Results(JoinRows(rows[..m], keys)), Results(OuterRow(rows[m], keys));
      assert Results(JoinRows(rows, keys)) == a + b by {
        ResultsConcat(JoinRows(rows[..m], keys), OuterRow(rows[m], keys));
      }
      CountConcat(a, b, r);
      assert rows == rows[..m] + [rows[m]];
      CountConcat(rows[..m], [rows[m]], r);
      RowResults(rows[m], keys);
    }
  }

  lemma GroupResults(rows: seq<Row>, keys: seq<string>, r: Row)
    ensures multiset(Results(FullJoin(rows, keys)))[r] == if r.hasId && r.key !in keys then multiset(rows)[r] else 0
  {
    ResultsConcat(JoinRows(rows, keys), Unmatched(rows, keys));
    UnmatchedMeaning(rows, keys);
    NoResults(Unmatched(rows, keys));
    JoinRowsResults(rows, keys, r);
  }

  lemma {:induction false} JoinRowsMatched(rows: seq<Row>, keys: seq<string>, j: Joined)
    requires j in JoinRows(rows, keys)
    ensures j.row.Some? && j.row.value in rows
            && (j.key.Some? ==> j.key.value in keys && j.key.value == j.row.value.key)
  {
    var m := |rows| - 1;
    if j in JoinRows(rows[..m], keys) {
      JoinRowsMatched(rows[..m], keys, j);
    } else {
      JoinRowMeaning(rows[m], keys);
    }
  }

  lemma {:induction false} JoinRowsHas(rows: seq<Row>, keys: seq<string>, r: Row)
    requires r in rows && r.key in keys
    ensures Joined(Some(r), Some(r.key)) in JoinRows(rows, keys)
  {
    var m := |rows| - 1;
    if r == rows[m] {
      JoinRowMeaning(r, keys);
      assert JoinRow(r, keys)[0] in JoinRow(r, keys);
    } else {
      assert r in rows[..m];
      JoinRowsHas(rows[..m], keys, r);
    }
  }

  /** Some row of the key has no id. */
  predicate LacksId(rows: seq<Row>, k: string) { exists i :: 0 <= i < |rows| && rows[i].key == k && !rows[i].hasId }

  /** A group uses up the delete of a key when it has rows with that key, and all of them have ids. */
  predicate UsesUp(rows: seq<Row>, k: string) { HasKey(rows, k) && !LacksId(rows, k) }

  /** What a group leaves over are the item's deletes that it does not use up. */
  lemma GroupRemaining(rows: seq<Row>, keys: seq<string>, k: string)
    ensures k in Remaining(FullJoin(rows, keys)) <==> k in keys && !UsesUp(rows, k)
  {
    UnmatchedMeaning(rows, keys);
    if k in Remaining(FullJoin(rows, keys)) {
      var j :| j in FullJoin(rows, keys) && Leftover(j) && j.key.value == k;
      if j in JoinRows(rows, keys) { JoinRowsMatched(rows, keys, j); }
    }
    if k in keys && !HasKey(rows, k) {
      var j := Joined(None, Some(k));
      assert j in Unmatched(rows, keys);
      assert j in FullJoin(rows, keys) && Leftover(j);
    }
    if k in keys && LacksId(rows, k) {
      var i :| 0 <= i < |rows| && rows[i].key == k && !rows[i].hasId;
      var j := Joined(Some(rows[i]), Some(k));
      JoinRowsHas(rows, keys, rows[i]);
      assert j in FullJoin(rows, keys) && Leftover(j);
    }
  }

  /** The whole job: one join per schema group. */
  function JoinGroups(groups: seq<seq<Row>>, keys: seq<string>): seq<Joined> {
    if |groups| == 0 then [] else JoinGroups(groups[..|groups| - 1], keys) + FullJoin(groups[|groups| - 1], keys)
  }

  lemma {:induction false} JobResults(groups: seq<seq<Row>>, keys: seq<string>, r: Row)
    ensures multiset(Results(JoinGroups(groups, keys)))[r]
            == if r.hasId && r.key !in keys then multiset(Flat(groups))[r] else 0
  {
    if |groups| != 0 {
      var m := |groups| - 1;
      JobResults(groups[..m], keys, r);
      ResultsConcat(JoinGroups(groups[..m], keys), FullJoin(groups[m], keys));
      GroupResults(groups[m], keys, r);
    }
  }

  /** Some group does not use up the delete of the key. */
  predicate SomeLeaves(groups: seq<seq<Row>>, k: string) { exists i :: 0 <= i < |groups| && !UsesUp(groups[i], k) }

  lemma LeavesMore(groups: seq<seq<Row>>, k: string)
    requires |groups| > 0
    ensures var m := |groups| - 1; SomeLeaves(groups, k) <==> SomeLeaves(groups[..m], k) || !UsesUp(groups[m], k)
  {
    var m := |groups| - 1;
    if SomeLeaves(groups[..m], k) {
      var i :| 0 <= i < m && !UsesUp(groups[..m][i], k);
      assert groups[..m][i] == groups[i];
    }
    if SomeLeaves(groups, k) {
      var i :| 0 <= i < |groups| && !UsesUp(groups[i], k);
      assert i < m ==> groups[..m][i] == groups[i];
    }
  }

  /** The remaining deletes of a job are those of the item that some group does not use up. */
  lemma {:induction false} JobRemaining(groups: seq<seq<Row>>, keys: seq<string>, k: string)
    ensures k in Remaining(JoinGroups(groups, keys)) <==> k in keys && SomeLeaves(groups, k)
  {
    if |groups| != 0 {
      var m := |groups| - 1;
      JobRemaining(groups[..m], keys, k);
      GroupRemaining(groups[m], keys, k);
      RemainingConcat(JoinGroups(groups[..m], keys), FullJoin(groups[m], keys), k);
      LeavesMore(groups, k);
    }
  }

  lemma RemainingConcat(a: seq<Joined>, b: seq<Joined>, k: string)
    ensures k in Remaining(a + b) <==> k in Remaining(a) || k in Remaining(b)
  {
    if k in Remaining(a + b) {
      var j :| j in a + b && Leftover(j) && j.key.value == k;
      assert j in a || j in b;
    }
    if k in Remaining(a) {
      var j :| j in a && Leftover(j) && j.key.value == k;
      assert j in a + b;
    }
    if k in Remaining(b) {
      var j :| j in b && Leftover(j) && j.key.value == k;
      assert j in a + b;
    }
  }

  lemma {:induction false} FlatHas(groups: seq<seq<Row>>, i: nat, r: Row)
    requires i < |groups| && r in groups[i]
    ensures r in Flat(groups)
  {
    var m := |groups| - 1;
    if i < m {
      assert groups[..m][i] == groups[i];
      FlatHas(groups[..m], i, r);
    }
  }

  // -------------------------------------------------- the checkpoint after it

  /** What a compaction of `item` adds to the files and commits. */
  datatype Job = Job(item: CompactionWorkItem, compaction: CompactionCommit, iceberg: IcebergCommit,
                     parquet: FileDesc, segment: string, remaining: set<string>)

  /** The new Iceberg list names the old paths and the new one, in any order and with any schemas and sizes. */
  predicate AddsParquet(j: Job, c: Checkpoint) {
    && UniquePaths(IcebergFiles(c)) && UniquePaths(j.iceberg.metadata.files)
    && PathSet(j.iceberg.metadata.files) == PathSet(IcebergFiles(c)) + {j.parquet.path}
  }

  /** What the listed compactions remove is the item's or is gone already. */
  predicate RemovesOnly(ids: seq<string>, j: Job, c: Checkpoint, lookup: Compactions) {
    var r := Removed(ids, lookup);
    r.Some? ==>
      && (forall i :: 0 <= i < |r.value.0| && r.value.0[i] in PathSet(SpeedboatFiles(c)) ==>
            r.value.0[i] in PathSet(j.item.speedboatFiles))
      && (forall i :: 0 <= i < |r.value.1| && (r.value.1[i] in DeleteFiles(c) || r.value.1[i] == j.segment) ==>
            r.value.1[i] in j.item.deleteFiles)
  }

  /** The commits name what the item holds.  The Iceberg commit lists every compaction since the snapshot
      that the compactor started from, so that it may name earlier ones again. */
  ghost predicate Announces(j: Job, c: Checkpoint, lookup: Compactions) {
    && (forall p :: p in j.compaction.removedSpeedboatFiles <==> p in PathSet(j.item.speedboatFiles))
    && j.compaction.removedDeleteFiles == j.item.deleteFiles
    && AddsParquet(j, c)
    && j.compaction.compactionId in j.iceberg.compactions && RemovesOnly(j.iceberg.compactions, j, c, lookup)
    && j.compaction.compactionId in lookup && lookup[j.compaction.compactionId] == j.compaction
    && (j.remaining == {} ==> j.iceberg.deletesTableInfo.None?)
    && (j.remaining != {} ==> j.iceberg.deletesTableInfo.Some? && j.iceberg.deletesTableInfo.value.files == [j.segment])
  }

  /** The new files are new, and hold the kept rows and the remaining deletes. */
  ghost predicate Writes(j: Job, f: Files, g: Files, c: Checkpoint) {
    && j.parquet.path !in CurrentPaths(c) && j.segment !in f.deletes && j.segment !in j.item.deleteFiles
    && (forall p :: p != j.parquet.path ==> RowsIn(g, p) == RowsIn(f, p))
    && (forall d :: d != j.segment ==> KeysIn(g, d) == KeysIn(f, d))
    && (j.remaining != {} ==> KeysIn(g, j.segment) == j.remaining)
    && (j.remaining == {} ==> KeysIn(g, j.segment) == {})
    && (forall r :: RowsIn(g, j.parquet.path)[r] ==
          if r.hasId && r.key !in AllKeys(f, j.item.deleteFiles) then AllRows(f, j.item.speedboatFiles)[r] else 0)
  }

  /** The remaining deletes lie between those that no compacted row matches and all of the item's. */
  ghost predicate RemainingBounded(j: Job, f: Files) {
    var keys, rows := AllKeys(f, j.item.deleteFiles), AllRows(f, j.item.speedboatFiles);
    && j.remaining <= keys
    && forall k :: k in keys && (forall r :: r in rows ==> r.key != k) ==> k in j.remaining
  }

  /** The item's files are still in the checkpoint. */
  ghost predicate StillThere(item: CompactionWorkItem, c: Checkpoint) {
    && UniquePaths(SpeedboatFiles(c)) && UniquePaths(item.speedboatFiles)
    && PathSet(item.speedboatFiles) <= PathSet(SpeedboatFiles(c))
    && forall d :: d in item.deleteFiles ==> d in DeleteFiles(c)
  }

  lemma {:induction false} SameRows(f: Files, g: Files, fs: seq<FileDesc>)
    requires forall d :: d in fs ==> RowsIn(g, d.path) == RowsIn(f, d.path)
    ensures AllRows(g, fs) == AllRows(f, fs)
  {
    if |fs| != 0 { SameRows(f, g, fs[..|fs| - 1]); }
  }

  lemma {:induction false} ListedRemoved(ids: seq<string>, lookup: Compactions, id: string)
    requires Removed(ids, lookup).Some? && id in ids
    ensures id in lookup
    ensures forall p :: p in lookup[id].removedSpeedboatFiles ==> p in Removed(ids, lookup).value.0
    ensures forall d :: d in lookup[id].removedDeleteFiles ==> d in Removed(ids, lookup).value.1
  {
    var m := |ids| - 1;
    if id != ids[m] {
      assert id in ids[..m];
      ListedRemoved(ids[..m], lookup, id);
    }
  }

  /** The ids that an applied Iceberg commit lists can be listed again: nothing they name is left to remove. */
  lemma ListedGone(c: Checkpoint, i: IcebergCommit, lookup: Compactions, x: string)
    requires ApplyIceberg(c, i, lookup).Some?
    ensures Removed(i.compactions, lookup).Some?
    ensures var r, d := Removed(i.compactions, lookup).value, ApplyIceberg(c, i, lookup).value;
            && (x in r.0 ==> x !in PathSet(SpeedboatFiles(d)))
            && (x in r.1 ==> x !in DeleteFiles(d))
  {
    RemoveFilesMeaning(SpeedboatFiles(c), Removed(i.compactions, lookup).value.0);
  }

  /** Removing everything that the listed compactions name removes the item's files. */
  lemma SameRemoved(j: Job, c: Checkpoint, lookup: Compactions)
    requires Announces(j, c, lookup) && Removed(j.iceberg.compactions, lookup).Some?
    ensures RemoveFiles(SpeedboatFiles(c), Removed(j.iceberg.compactions, lookup).value.0)
            == RemoveFiles(SpeedboatFiles(c), j.compaction.removedSpeedboatFiles)
    ensures forall x :: x in DeleteFiles(c) || x == j.segment ==>
              (x in Removed(j.iceberg.compactions, lookup).value.1 <==> x in j.item.deleteFiles)
  {
    var r := Removed(j.iceberg.compactions, lookup).value;
    ListedRemoved(j.iceberg.compactions, lookup, j.compaction.compactionId);
    forall d | d in SpeedboatFiles(c)
      ensures Listed(r.0, d) == Listed(j.compaction.removedSpeedboatFiles, d)
    {
      assert d.path in PathSet(SpeedboatFiles(c));
    }
    FilterExt(SpeedboatFiles(c), (d: FileDesc) => !Listed(r.0, d),
              (d: FileDesc) => !Listed(j.compaction.removedSpeedboatFiles, d));
  }

  lemma AppliedShape(j: Job, c: Checkpoint, lookup: Compactions)
    requires Announces(j, c, lookup) && ApplyIceberg(c, j.iceberg, lookup).Some?
    ensures var d := ApplyIceberg(c, j.iceberg, lookup).value;
            && IcebergFiles(d) == j.iceberg.metadata.files
            && SpeedboatFiles(d) == RemoveFiles(SpeedboatFiles(c), j.compaction.removedSpeedboatFiles)
            && (forall x :: x in DeleteFiles(d) <==>
                  (x in DeleteFiles(c) || (j.remaining != {} && x == j.segment)) && x !in j.item.deleteFiles)
  {
    SameRemoved(j, c, lookup);
    if c.speedboat.None? { assert RemoveFiles([], j.compaction.removedSpeedboatFiles) == []; }
  }

  /** The rows that a compaction does not touch. */
  function RestRows(j: Job, f: Files, c: Checkpoint): multiset<Row> {
    AllRows(f, IcebergFiles(c)) + AllRows(f, RemoveFiles(SpeedboatFiles(c), j.compaction.removedSpeedboatFiles))
  }

  lemma UntouchedRows(j: Job, f: Files, g: Files, c: Checkpoint)
    requires Writes(j, f, g, c)
    ensures AllRows(g, IcebergFiles(c)) == AllRows(f, IcebergFiles(c))
    ensures var left := RemoveFiles(SpeedboatFiles(c), j.compaction.removedSpeedboatFiles);
            AllRows(g, left) == AllRows(f, left)
  {
    var left := RemoveFiles(SpeedboatFiles(c), j.compaction.removedSpeedboatFiles);
    forall d | d in IcebergFiles(c) || d in left
      ensures RowsIn(g, d.path) == RowsIn(f, d.path)
    {
      assert d.path in CurrentPaths(c);
    }
    SameRows(f, g, IcebergFiles(c));
    SameRows(f, g, left);
  }

  lemma ParquetPaths(j: Job, c: Checkpoint)
    requires AddsParquet(j, c) && j.parquet.path !in CurrentPaths(c)
    ensures UniquePaths(IcebergFiles(c) + [j.parquet])
    ensures PathSet(j.iceberg.metadata.files) == PathSet(IcebergFiles(c) + [j.parquet])
  {
    AddFilePaths(IcebergFiles(c), j.parquet);
  }

  lemma RowsAfter(j: Job, f: Files, g: Files, c: Checkpoint, lookup: Compactions)
    requires Announces(j, c, lookup) && ApplyIceberg(c, j.iceberg, lookup).Some? && Writes(j, f, g, c)
    ensures TableRows(g, ApplyIceberg(c, j.iceberg, lookup).value) == RestRows(j, f, c) + RowsIn(g, j.parquet.path)
  {
    AppliedShape(j, c, lookup);
    UntouchedRows(j, f, g, c);
    ParquetPaths(j, c);
    AllRowsSame(g, j.iceberg.metadata.files, IcebergFiles(c) + [j.parquet]);
    AllRowsConcat(g, IcebergFiles(c), [j.parquet]);
    AllRowsOne(g, j.parquet);
  }

  // ------------------------------------------------- exactly when rows are kept

  function Paths(fs: seq<FileDesc>): seq<string> {
    seq(|fs|, i requires 0 <= i < |fs| => fs[i].path)
  }

  /** The item's files that are still in the checkpoint. */
  function There(item: CompactionWorkItem, c: Checkpoint): seq<FileDesc> {
    Filter(item.speedboatFiles, (d: FileDesc) => Listed(Paths(SpeedboatFiles(c)), d))
  }

  /** Those that something else has removed. */
  function Gone(item: CompactionWorkItem, c: Checkpoint): seq<FileDesc> {
    RemoveFiles(item.speedboatFiles, Paths(SpeedboatFiles(c)))
  }

  predicate UniqueFiles(j: Job, c: Checkpoint) {
    UniquePaths(SpeedboatFiles(c)) && UniquePaths(j.item.speedboatFiles)
  }

  lemma PathsListed(fs: seq<FileDesc>, p: string)
    ensures p in Paths(fs) <==> p in PathSet(fs)
  {
    if p in Paths(fs) {
      var i :| 0 <= i < |fs| && Paths(fs)[i] == p;
      assert fs[i] in fs;
    }
    if p in PathSet(fs) {
      var i :| 0 <= i < |fs| && fs[i].path == p;
      assert Paths(fs)[i] == p;
    }
  }

  /** The checkpoint's files that are named for removal are the item's that are still there. */
  lemma TherePaths(j: Job, c: Checkpoint, lookup: Compactions)
    requires Announces(j, c, lookup)
    ensures var dropped := Filter(SpeedboatFiles(c), (d: FileDesc) => Listed(j.compaction.removedSpeedboatFiles, d));
            PathSet(dropped) == PathSet(There(j.item, c))
  {
    var dropped := Filter(SpeedboatFiles(c), (d: FileDesc) => Listed(j.compaction.removedSpeedboatFiles, d));
    forall p
      ensures p in PathSet(dropped) <==> p in PathSet(There(j.item, c))
    {
      PathsListed(SpeedboatFiles(c), p);
      if p in PathSet(dropped) {
        var d :| d in j.item.speedboatFiles && d.path == p;
        assert d in There(j.item, c);
      }
      if p in PathSet(There(j.item, c)) {
        var d :| d in SpeedboatFiles(c) && d.path == p;
        assert d in dropped;
      }
    }
  }

  lemma RowsBefore(j: Job, f: Files, c: Checkpoint, lookup: Compactions)
    requires Announces(j, c, lookup) && UniqueFiles(j, c)
    ensures TableRows(f, c) == RestRows(j, f, c) + AllRows(f, There(j.item, c))
    ensures AllRows(f, j.item.speedboatFiles) == AllRows(f, Gone(j.item, c)) + AllRows(f, There(j.item, c))
  {
    var drop := (d: FileDesc) => Listed(j.compaction.removedSpeedboatFiles, d);
    FilterSplit(f, SpeedboatFiles(c), j.compaction.removedSpeedboatFiles);
    FilterSplit(f, j.item.speedboatFiles, Paths(SpeedboatFiles(c)));
    FilterUniquePaths(SpeedboatFiles(c), drop);
    FilterUniquePaths(j.item.speedboatFiles, (d: FileDesc) => Listed(Paths(SpeedboatFiles(c)), d));
    TherePaths(j, c, lookup);
    AllRowsSame(f, Filter(SpeedboatFiles(c), drop), There(j.item, c));
  }

  predicate Hidden(f: Files, c: Checkpoint, k: string) { k in AllKeys(f, DeleteFiles(c)) }

  /** The key is deleted by a file of the item, so that the job does not copy its rows. */
  predicate Applied(j: Job, f: Files, k: string) { k in AllKeys(f, j.item.deleteFiles) }

  /** The key hides rows after the compaction: it remains, or another delete file holds it. */
  predicate HidesAfter(j: Job, f: Files, c: Checkpoint, k: string) {
    k in j.remaining || exists x :: x in DeleteFiles(c) && x !in j.item.deleteFiles && k in KeysIn(f, x)
  }

  lemma KeysAfter(j: Job, f: Files, g: Files, c: Checkpoint, lookup: Compactions, k: string)
    requires Announces(j, c, lookup) && ApplyIceberg(c, j.iceberg, lookup).Some? && Writes(j, f, g, c)
    ensures Hidden(g, ApplyIceberg(c, j.iceberg, lookup).value, k) <==> HidesAfter(j, f, c, k)
  {
    var d := ApplyIceberg(c, j.iceberg, lookup).value;
    AppliedShape(j, c, lookup);
    AllKeysIn(g, DeleteFiles(d), k);
    if x :| x in DeleteFiles(d) && k in KeysIn(g, x) {
      if x != j.segment { assert x in DeleteFiles(c) && x !in j.item.deleteFiles && k in KeysIn(f, x); }
    }
    if k in j.remaining { assert j.segment in DeleteFiles(d) && k in KeysIn(g, j.segment); }
    if x :| x in DeleteFiles(c) && x !in j.item.deleteFiles && k in KeysIn(f, x) {
      assert x in DeleteFiles(d) && k in KeysIn(g, x);
    }
  }

  lemma KeysBefore(j: Job, f: Files, c: Checkpoint, k: string)
    ensures Hidden(f, c, k) && !HidesAfter(j, f, c, k) ==> Applied(j, f, k)
    ensures HidesAfter(j, f, c, k) ==> Hidden(f, c, k) || k in j.remaining
  {
    AllKeysIn(f, DeleteFiles(c), k);
    AllKeysIn(f, j.item.deleteFiles, k);
  }

  /** What a compaction must meet for a row, whatever has happened to the item's files: a visible row that it takes
      out has an id and is not deleted by the item, a visible row is not copied from a file that is gone, a deleted
      row stays deleted, and a visible row is not deleted anew. */
  ghost predicate HarmlessTo(j: Job, f: Files, c: Checkpoint, r: Row) {
    && (r in AllRows(f, There(j.item, c)) && !Hidden(f, c, r.key) ==>
          r.hasId && (Applied(j, f, r.key) ==> r.key in j.remaining))
    && (r in AllRows(f, Gone(j.item, c)) && r.hasId && !Applied(j, f, r.key) ==> Hidden(f, c, r.key))
    && (r in RestRows(j, f, c) && Hidden(f, c, r.key) ==> HidesAfter(j, f, c, r.key))
    && (r in TableRows(f, c) && !Hidden(f, c, r.key) ==> r.key !in j.remaining)
  }

  ghost predicate Harmless(j: Job, f: Files, c: Checkpoint) {
    forall r :: HarmlessTo(j, f, c, r)
  }

  /** The same, given how often the row occurs and what happens to its key. */
  predicate RowHarmless(rest: nat, there: nat, gone: nat, hasId: bool, hidden: bool, after: bool, applied: bool,
                        left: bool)
  {
    && (there > 0 && !hidden ==> hasId && (applied ==> left))
    && (gone > 0 && hasId && !applied ==> hidden)
    && (rest > 0 && hidden ==> after)
    && (rest + there > 0 && !hidden ==> !left)
  }

  lemma RowCounts(rest: nat, there: nat, gone: nat, hasId: bool, hidden: bool, after: bool, applied: bool, left: bool)
    requires (hidden && !after ==> applied) && (after ==> hidden || left) && (left ==> applied && after)
    ensures var moved := if hasId && !applied then gone + there else 0;
            (if after then 0 else rest + moved) == (if hidden then 0 else rest + there)
            <==> RowHarmless(rest, there, gone, hasId, hidden, after, applied, left)
  {
  }

  lemma HarmlessCounts(j: Job, f: Files, c: Checkpoint, r: Row)
    requires TableRows(f, c) == RestRows(j, f, c) + AllRows(f, There(j.item, c))
    ensures HarmlessTo(j, f, c, r) <==>
            RowHarmless(RestRows(j, f, c)[r], AllRows(f, There(j.item, c))[r], AllRows(f, Gone(j.item, c))[r], r.hasId,
                        Hidden(f, c, r.key), HidesAfter(j, f, c, r.key), Applied(j, f, r.key), r.key in j.remaining)
  {
  }

  lemma RowKept(j: Job, f: Files, g: Files, c: Checkpoint, lookup: Compactions, r: Row)
    requires Announces(j, c, lookup) && ApplyIceberg(c, j.iceberg, lookup).Some? && Writes(j, f, g, c)
    requires UniqueFiles(j, c) && j.remaining <= AllKeys(f, j.item.deleteFiles)
    ensures Visible(g, ApplyIceberg(c, j.iceberg, lookup).value, r) == Visible(f, c, r) <==> HarmlessTo(j, f, c, r)
  {
    RowsBefore(j, f, c, lookup);
    RowsAfter(j, f, g, c, lookup);
    KeysAfter(j, f, g, c, lookup, r.key);
    KeysBefore(j, f, c, r.key);
    HarmlessCounts(j, f, c, r);
    RowCounts(RestRows(j, f, c)[r], AllRows(f, There(j.item, c))[r], AllRows(f, Gone(j.item, c))[r], r.hasId,
              Hidden(f, c, r.key), HidesAfter(j, f, c, r.key), Applied(j, f, r.key), r.key in j.remaining);
  }

  /** A compaction that lands leaves the visible rows alone exactly when it is harmless to every row. */
  lemma CompactionHarmless(j: Job, f: Files, g: Files, c: Checkpoint, lookup: Compactions)
    requires Announces(j, c, lookup) && ApplyIceberg(c, j.iceberg, lookup).Some? && Writes(j, f, g, c)
    requires UniqueFiles(j, c) && j.remaining <= AllKeys(f, j.item.deleteFiles)
    ensures SameView(f, c, g, ApplyIceberg(c, j.iceberg, lookup).value) <==> Harmless(j, f, c)
  {
    forall r
      ensures Visible(g, ApplyIceberg(c, j.iceberg, lookup).value, r) == Visible(f, c, r) <==> HarmlessTo(j, f, c, r)
    {
      RowKept(j, f, g, c, lookup, r);
    }
  }

  // ------------------------------------------- when the item is still in place

  /** If the row is compacted and was visible, it has an id. */
  predicate IdPresent(j: Job, f: Files, c: Checkpoint, r: Row) {
    r in AllRows(f, j.item.speedboatFiles) && !Hidden(f, c, r.key) ==> r.hasId
  }

  ghost predicate IdsPresent(j: Job, f: Files, c: Checkpoint) {
    forall r :: IdPresent(j, f, c, r)
  }

  lemma AllThere(item: CompactionWorkItem, c: Checkpoint)
    requires StillThere(item, c)
    ensures There(item, c) == item.speedboatFiles && Gone(item, c) == []
  {
    var ps := Paths(SpeedboatFiles(c));
    forall d | d in item.speedboatFiles
      ensures Listed(ps, d)
    {
      assert d.path in PathSet(item.speedboatFiles);
      PathsListed(SpeedboatFiles(c), d.path);
    }
    FilterAll(item.speedboatFiles, (d: FileDesc) => Listed(ps, d));
    FilterNone(item.speedboatFiles, (d: FileDesc) => !Listed(ps, d));
  }

  lemma DeletesThere(j: Job, f: Files, c: Checkpoint, k: string)
    requires StillThere(j.item, c) && Applied(j, f, k)
    ensures Hidden(f, c, k)
  {
    AllKeysIn(f, DeleteFiles(c), k);
    AllKeysIn(f, j.item.deleteFiles, k);
  }

  /** A deleted row outside the item stays deleted: its key is no compacted row's, so that its delete remains. */
  lemma RestStaysHidden(j: Job, f: Files, c: Checkpoint, r: Row)
    requires RemainingBounded(j, f) && UniqueKeys(RestRows(j, f, c) + AllRows(f, j.item.speedboatFiles))
    requires r in RestRows(j, f, c) && Hidden(f, c, r.key)
    ensures HidesAfter(j, f, c, r.key)
  {
    KeysBefore(j, f, c, r.key);
    if !HidesAfter(j, f, c, r.key) {
      var rest, rows := RestRows(j, f, c), AllRows(f, j.item.speedboatFiles);
      var s :| s in rows && s.key == r.key;
      OnceEach(rest, rows, r, s);
    }
  }

  lemma OnceEach(rest: multiset<Row>, rows: multiset<Row>, r: Row, s: Row)
    requires UniqueKeys(rest + rows) && r in rest && s in rows
    ensures r.key != s.key
  {
    var all := rest + rows;
    assert r in all && s in all;
    assert all[r] == rest[r] + rows[r];
  }

  lemma HarmlessToWhenThere(j: Job, f: Files, c: Checkpoint, lookup: Compactions, r: Row)
    requires Announces(j, c, lookup) && StillThere(j.item, c) && RemainingBounded(j, f) && UniqueKeys(TableRows(f, c))
    ensures HarmlessTo(j, f, c, r) <==> IdPresent(j, f, c, r)
  {
    AllThere(j.item, c);
    RowsBefore(j, f, c, lookup);
    if Applied(j, f, r.key) { DeletesThere(j, f, c, r.key); }
    if r in RestRows(j, f, c) && Hidden(f, c, r.key) { RestStaysHidden(j, f, c, r); }
  }

  lemma HarmlessWhenThere(j: Job, f: Files, c: Checkpoint, lookup: Compactions)
    requires Announces(j, c, lookup) && StillThere(j.item, c) && RemainingBounded(j, f) && UniqueKeys(TableRows(f, c))
    ensures Harmless(j, f, c) <==> IdsPresent(j, f, c)
  {
    forall r
      ensures HarmlessTo(j, f, c, r) <==> IdPresent(j, f, c, r)
    {
      HarmlessToWhenThere(j, f, c, lookup, r);
    }
  }

  /** While the item is still in place, compaction keeps the visible rows, for any remaining deletes within the
      bounds, exactly when every visible row of the item has an id. */
  lemma CompactionKeepsRows(j: Job, f: Files, g: Files, c: Checkpoint, lookup: Compactions)
    requires Announces(j, c, lookup) && ApplyIceberg(c, j.iceberg, lookup).Some? && Writes(j, f, g, c)
    requires StillThere(j.item, c) && RemainingBounded(j, f) && UniqueKeys(TableRows(f, c))
    ensures SameView(f, c, g, ApplyIceberg(c, j.iceberg, lookup).value) <==> IdsPresent(j, f, c)
  {
    CompactionHarmless(j, f, g, c, lookup);
    HarmlessWhenThere(j, f, c, lookup);
  }

  // ------------------------------------------------- what the job computes

  function RowList(f: Files, fs: seq<FileDesc>): seq<Row> {
    if |fs| == 0 then []
    else
      var p := fs[|fs| - 1].path;
      RowList(f, fs[..|fs| - 1]) + if p in f.rows then f.rows[p] else []
  }

  function KeyList(f: Files, ds: seq<string>): seq<string> {
    if |ds| == 0 then []
    else
      var d := ds[|ds| - 1];
      KeyList(f, ds[..|ds| - 1]) + if d in f.deletes then f.deletes[d] else []
  }

  function GroupRows(f: Files, groups: seq<seq<FileDesc>>): seq<seq<Row>> {
    seq(|groups|, i requires 0 <= i < |groups| => RowList(f, groups[i]))
  }

  lemma {:induction false} RowListRows(f: Files, fs: seq<FileDesc>)
    ensures multiset(RowList(f, fs)) == AllRows(f, fs)
  {
    if |fs| != 0 { RowListRows(f, fs[..|fs| - 1]); }
  }

  lemma {:induction false} KeyListKeys(f: Files, ds: seq<string>, k: string)
    ensures k in KeyList(f, ds) <==> k in AllKeys(f, ds)
  {
    if |ds| != 0 { KeyListKeys(f, ds[..|ds| - 1], k); }
  }

  lemma {:induction false} GroupRowsAll(f: Files, groups: seq<seq<FileDesc>>)
    ensures multiset(Flat(GroupRows(f, groups))) == AllRows(f, Flat(groups))
  {
    if |groups| != 0 {
      var m := |groups| - 1;
      GroupRowsAll(f, groups[..m]);
      assert GroupRows(f, groups)[..m] == GroupRows(f, groups[..m]);
      RowListRows(f, groups[m]);
      AllRowsConcat(f, Flat(groups[..m]), groups[m]);
    }
  }

  /** The joined rows of a work item whose files were grouped by schema. */
  function JobJoin(f: Files, item: CompactionWorkItem, groups: seq<seq<FileDesc>>): seq<Joined> {
    JoinGroups(GroupRows(f, groups), KeyList(f, item.deleteFiles))
  }

  lemma JobWrites(f: Files, item: CompactionWorkItem, groups: seq<seq<FileDesc>>, r: Row)
    requires multiset(Flat(groups)) == multiset(item.speedboatFiles)
    ensures multiset(Results(JobJoin(f, item, groups)))[r] ==
            if r.hasId && r.key !in AllKeys(f, item.deleteFiles) then AllRows(f, item.speedboatFiles)[r] else 0
  {
    GroupRowsAll(f, groups);
    AllRowsPermutation(f, Flat(groups), item.speedboatFiles);
    KeyListKeys(f, item.deleteFiles, r.key);
    JobResults(GroupRows(f, groups), KeyList(f, item.deleteFiles), r);
  }

  lemma JobLeaves(f: Files, item: CompactionWorkItem, groups: seq<seq<FileDesc>>, k: string)
    ensures k in Remaining(JobJoin(f, item, groups)) <==>
              k in AllKeys(f, item.deleteFiles) && SomeLeaves(GroupRows(f, groups), k)
  {
    KeyListKeys(f, item.deleteFiles, k);
    JobRemaining(GroupRows(f, groups), KeyList(f, item.deleteFiles), k);
  }

  /** However the files of the item are grouped, the join writes the rows that `Writes` asks for, and leaves over the
      deletes that some group does not use up. */
  lemma JobMeets(f: Files, item: CompactionWorkItem, groups: seq<seq<FileDesc>>, r: Row, k: string)
    requires multiset(Flat(groups)) == multiset(item.speedboatFiles)
    ensures multiset(Results(JobJoin(f, item, groups)))[r] ==
            if r.hasId && r.key !in AllKeys(f, item.deleteFiles) then AllRows(f, item.speedboatFiles)[r] else 0
    ensures k in Remaining(JobJoin(f, item, groups)) <==>
              k in AllKeys(f, item.deleteFiles) && SomeLeaves(GroupRows(f, groups), k)
  {
    JobWrites(f, item, groups, r);
    JobLeaves(f, item, groups, k);
  }

  /** So the remaining deletes lie within the bounds that `CompactionKeepsRows` asks for. */
  lemma JobBounded(f: Files, j: Job, groups: seq<seq<FileDesc>>)
    requires multiset(Flat(groups)) == multiset(j.item.speedboatFiles) && |groups| > 0
    requires j.remaining == Remaining(JobJoin(f, j.item, groups))
    ensures RemainingBounded(j, f)
  {
    var rows := AllRows(f, j.item.speedboatFiles);
    forall k
      ensures k in j.remaining ==> Applied(j, f, k)
      ensures Applied(j, f, k) && (forall r :: r in rows ==> r.key != k) ==> k in j.remaining
    {
      JobLeaves(f, j.item, groups, k);
      if Applied(j, f, k) && forall r :: r in rows ==> r.key != k { NoneUsesUp(f, j.item, groups, k); }
    }
  }

  lemma GroupRowIn(f: Files, item: CompactionWorkItem, groups: seq<seq<FileDesc>>, i: nat, r: Row)
    requires multiset(Flat(groups)) == multiset(item.speedboatFiles) && i < |groups| && r in RowList(f, groups[i])
    ensures r in AllRows(f, item.speedboatFiles)
  {
    GroupRowsAll(f, groups);
    AllRowsPermutation(f, Flat(groups), item.speedboatFiles);
    assert GroupRows(f, groups)[i] == RowList(f, groups[i]);
    FlatHas(GroupRows(f, groups), i, r);
    assert r in multiset(Flat(GroupRows(f, groups)));
  }

  lemma NoneUsesUp(f: Files, item: CompactionWorkItem, groups: seq<seq<FileDesc>>, k: string)
    requires multiset(Flat(groups)) == multiset(item.speedboatFiles) && |groups| > 0
    requires forall r :: r in AllRows(f, item.speedboatFiles) ==> r.key != k
    ensures SomeLeaves(GroupRows(f, groups), k)
  {
    var rows := RowList(f, groups[0]);
    forall n | 0 <= n < |rows|
      ensures rows[n].key != k
    {
      GroupRowIn(f, item, groups, 0, rows[n]);
    }
    assert GroupRows(f, groups)[0] == rows && !UsesUp(rows, k);
  }

  // ------------------------------------------------- commits in between

  /** The entry removes none of the item's files. */
  predicate Spares(w: World, e: Entry, item: CompactionWorkItem) {
    match e
    case Speedboat(id) =>
      id in w.speedboats && w.speedboats[id].compaction.Some? ==>
        SparedBy([w.speedboats[id].compaction.value], w.compactions, item)
    case Iceberg(id) => id in w.icebergs ==> SparedBy(w.icebergs[id].compactions, w.compactions, item)
  }

  predicate SparedBy(ids: seq<string>, lookup: Compactions, item: CompactionWorkItem) {
    var r := Removed(ids, lookup);
    r.Some? ==> && (forall i :: 0 <= i < |r.value.0| ==> r.value.0[i] !in PathSet(item.speedboatFiles))
                && (forall i :: 0 <= i < |r.value.1| ==> r.value.1[i] !in item.deleteFiles)
  }

  lemma RemoveAllSpares(item: CompactionWorkItem, c: Checkpoint, sb: seq<string>, del: seq<string>)
    requires StillThere(item, c)
    requires forall i :: 0 <= i < |sb| ==> sb[i] !in PathSet(item.speedboatFiles)
    requires forall i :: 0 <= i < |del| ==> del[i] !in item.deleteFiles
    ensures StillThere(item, RemoveAll(c, sb, del))
  {
    RemoveFilesMeaning(SpeedboatFiles(c), sb);
  }

  lemma {:induction false} TableInfosSpare(item: CompactionWorkItem, c: Checkpoint, ts: seq<TableInfo>)
    requires StillThere(item, c) && ApplyTableInfos(c, ts).Some?
    ensures StillThere(item, ApplyTableInfos(c, ts).value)
  {
    if |ts| != 0 {
      var m := |ts| - 1;
      TableInfosSpare(item, c, ts[..m]);
      var d := ApplyTableInfos(c, ts[..m]).value;
      if IsData(ts[m]) && ts[m].commitType != "delete" { MergeFilesMeaning(SpeedboatFiles(d), Payload(ts[m]).value); }
    }
  }

  lemma SpeedboatSpares(item: CompactionWorkItem, c: Checkpoint, s: SpeedboatCommit, lookup: Compactions)
    requires StillThere(item, c) && ApplySpeedboat(c, s, lookup).Some?
    requires s.compaction.Some? ==> SparedBy([s.compaction.value], lookup, item)
    ensures StillThere(item, ApplySpeedboat(c, s, lookup).value)
  {
    var start := c.(speedboat := Some(SpeedboatFiles(c)), deletes := Some(DeleteFiles(c)));
    TableInfosSpare(item, start, s.typeFiles);
    if s.compaction.Some? {
      var r := Removed([s.compaction.value], lookup).value;
      RemoveAllSpares(item, ApplyTableInfos(start, s.typeFiles).value, r.0, r.1);
    }
  }

  lemma IcebergSpares(item: CompactionWorkItem, c: Checkpoint, i: IcebergCommit, lookup: Compactions)
    requires StillThere(item, c) && ApplyIceberg(c, i, lookup).Some? && SparedBy(i.compactions, lookup, item)
    ensures StillThere(item, ApplyIceberg(c, i, lookup).value)
  {
    var d := c.(iceberg := Some(i.metadata),
                deletes := if i.deletesTableInfo.Some? then Some(DeleteFiles(c) + i.deletesTableInfo.value.files)
                           else c.deletes,
                schema := ApplyIceberg(c, i, lookup).value.schema);
    var r := Removed(i.compactions, lookup).value;
    RemoveAllSpares(item, d, r.0, r.1);
  }

  /** Commits that remove none of the item's files leave the item in place, whatever else they do. */
  lemma {:induction false} CommitsSpare(w: World, item: CompactionWorkItem, c: Checkpoint, log: seq<Entry>)
    requires StillThere(item, c) && Replay(w, c, log).Some?
    requires forall i :: 0 <= i < |log| ==> Spares(w, log[i], item)
    ensures StillThere(item, Replay(w, c, log).value)
  {
    if |log| != 0 {
      var m := |log| - 1;
      CommitsSpare(w, item, c, log[..m]);
      var d := Replay(w, c, log[..m]).value;
      assert Spares(w, log[m], item);
      match log[m] {
        case Speedboat(id) => SpeedboatSpares(item, d, w.speedboats[id], w.compactions);
        case Iceberg(id) => IcebergSpares(item, d, w.icebergs[id], w.compactions);
      }
    }
  }

  /** The whole story: a work item is made from a checkpoint, any commits that spare its files are
      applied, and then the compaction lands.  The reader sees the same rows just before and just after
      it, provided the rows it moved have ids. */
  lemma CompactionAfterCommits(w: World, c0: Checkpoint, log: seq<Entry>, j: Job, f: Files, g: Files)
    requires WellFormedCheckpoint(c0) && j.item == ItemFromCheckpoint(c0)
    requires Replay(w, c0, log).Some? && forall i :: 0 <= i < |log| ==> Spares(w, log[i], j.item)
    requires var c := Replay(w, c0, log).value;
             && Announces(j, c, w.compactions) && ApplyIceberg(c, j.iceberg, w.compactions).Some?
             && Writes(j, f, g, c) && RemainingBounded(j, f) && UniqueKeys(TableRows(f, c))
    ensures var c := Replay(w, c0, log).value; var d := ApplyIceberg(c, j.iceberg, w.compactions).value;
            SameView(f, c, g, d) <==> IdsPresent(j, f, c)
  {
    CommitsSpare(w, j.item, c0, log);
    CompactionKeepsRows(j, f, g, Replay(w, c0, log).value, w.compactions);
  }
}
