/** The landing of an Iceberg commit with whatever list of files it brings and whatever compactions it names:
    `commit_iceberg` takes both as they are, although the list was loaded before the pointer was read. */
module CompactionLists {
  import opened Prelude
  import opened FileSets
  import opened Checkpoints
  import opened CompactionRows

  // ------------------------------------------------------ rows around a landing

  /** The speedboat and the delete files that the commit's compactions name. */
  function Named(i: IcebergCommit, lookup: Compactions): (seq<string>, seq<string>) {
    match Removed(i.compactions, lookup)
    case None => ([], [])
    case Some(r) => r
  }

  /** The checkpoint's Iceberg files that the new list has too, and its speedboat files that are not named. */
  function StayingRows(f: Files, c: Checkpoint, i: IcebergCommit, lookup: Compactions): multiset<Row> {
    AllRows(f, Filter(IcebergFiles(c), (d: FileDesc) => Listed(Paths(i.metadata.files), d)))
    + AllRows(f, RemoveFiles(SpeedboatFiles(c), Named(i, lookup).0))
  }

  /** The checkpoint's Iceberg files that the new list lacks, and its speedboat files that are named. */
  function LeavingRows(f: Files, c: Checkpoint, i: IcebergCommit, lookup: Compactions): multiset<Row> {
    AllRows(f, RemoveFiles(IcebergFiles(c), Paths(i.metadata.files)))
    + AllRows(f, Filter(SpeedboatFiles(c), (d: FileDesc) => Listed(Named(i, lookup).0, d)))
  }

  /** The files of the new list that the checkpoint lacks. */
  function NewFiles(c: Checkpoint, i: IcebergCommit): seq<FileDesc> {
    RemoveFiles(i.metadata.files, Paths(IcebergFiles(c)))
  }

  predicate UniqueLists(c: Checkpoint, i: IcebergCommit) {
    UniquePaths(IcebergFiles(c)) && UniquePaths(i.metadata.files)
  }

  lemma RowsBeforeLanding(f: Files, c: Checkpoint, i: IcebergCommit, lookup: Compactions)
    ensures TableRows(f, c) == StayingRows(f, c, i, lookup) + LeavingRows(f, c, i, lookup)
  {
    FilterSplit(f, IcebergFiles(c), Paths(i.metadata.files));
    FilterSplit(f, SpeedboatFiles(c), Named(i, lookup).0);
  }

  lemma LandedShape(c: Checkpoint, i: IcebergCommit, lookup: Compactions)
    requires ApplyIceberg(c, i, lookup).Some?
    ensures var d := ApplyIceberg(c, i, lookup).value;
            && IcebergFiles(d) == i.metadata.files
            && SpeedboatFiles(d) == RemoveFiles(SpeedboatFiles(c), Named(i, lookup).0)
  {
    if c.speedboat.None? { assert RemoveFiles([], Named(i, lookup).0) == []; }
  }

  lemma SharedPaths(a: seq<FileDesc>, b: seq<FileDesc>)
    ensures var both := Filter(a, (d: FileDesc) => Listed(Paths(b), d)); PathSet(both) == PathSet(a) * PathSet(b)
  {
    var both := Filter(a, (d: FileDesc) => Listed(Paths(b), d));
    forall p
      ensures p in PathSet(both) <==> p in PathSet(a) && p in PathSet(b)
    {
      PathsListed(b, p);
      if p in PathSet(a) && p in PathSet(b) {
        var d :| d in a && d.path == p;
        assert d in both;
      }
    }
  }

  /** The files that two lists share hold the same rows, whichever list describes them. */
  lemma SharedRows(f: Files, a: seq<FileDesc>, b: seq<FileDesc>)
    requires UniquePaths(a) && UniquePaths(b)
    ensures AllRows(f, Filter(a, (d: FileDesc) => Listed(Paths(b), d)))
            == AllRows(f, Filter(b, (d: FileDesc) => Listed(Paths(a), d)))
  {
    var inA, inB := (d: FileDesc) => Listed(Paths(a), d), (d: FileDesc) => Listed(Paths(b), d);
    SharedPaths(a, b);
    SharedPaths(b, a);
    FilterUniquePaths(a, inB);
    FilterUniquePaths(b, inA);
    AllRowsSame(f, Filter(a, inB), Filter(b, inA));
  }

  lemma RowsAfterLanding(f: Files, c: Checkpoint, i: IcebergCommit, lookup: Compactions)
    requires ApplyIceberg(c, i, lookup).Some? && UniqueLists(c, i)
    ensures TableRows(f, ApplyIceberg(c, i, lookup).value)
            == StayingRows(f, c, i, lookup) + AllRows(f, NewFiles(c, i))
  {
    LandedShape(c, i, lookup);
    FilterSplit(f, i.metadata.files, Paths(IcebergFiles(c)));
    SharedRows(f, IcebergFiles(c), i.metadata.files);
  }

  // ------------------------------------------------------ keys around a landing

  /** The checkpoint has the delete file, or the commit brings it. */
  predicate Deletes(c: Checkpoint, i: IcebergCommit, x: string) {
    x in DeleteFiles(c) || (i.deletesTableInfo.Some? && x in i.deletesTableInfo.value.files)
  }

  /** A delete file that no listed compaction names holds the key. */
  ghost predicate StaysHidden(f: Files, c: Checkpoint, i: IcebergCommit, lookup: Compactions, k: string) {
    exists x :: Deletes(c, i, x) && x !in Named(i, lookup).1 && k in KeysIn(f, x)
  }

  lemma LandedDeletes(c: Checkpoint, i: IcebergCommit, lookup: Compactions, x: string)
    requires ApplyIceberg(c, i, lookup).Some?
    ensures x in DeleteFiles(ApplyIceberg(c, i, lookup).value) <==> Deletes(c, i, x) && x !in Named(i, lookup).1
  {
  }

  lemma KeysAfterLanding(f: Files, c: Checkpoint, i: IcebergCommit, lookup: Compactions, k: string)
    requires ApplyIceberg(c, i, lookup).Some?
    ensures Hidden(f, ApplyIceberg(c, i, lookup).value, k) <==> StaysHidden(f, c, i, lookup, k)
  {
    var d := ApplyIceberg(c, i, lookup).value;
    AllKeysIn(f, DeleteFiles(d), k);
    if x :| x in DeleteFiles(d) && k in KeysIn(f, x) { LandedDeletes(c, i, lookup, x); }
    if x :| Deletes(c, i, x) && x !in Named(i, lookup).1 && k in KeysIn(f, x) { LandedDeletes(c, i, lookup, x); }
  }

  // ------------------------------------------------------- the exact condition

  /** A row that stays visible comes in as often as it goes out; one that becomes visible was not there and does not
      come in; one that is hidden anew was not there. */
  predicate Even(staying: nat, leaving: nat, coming: nat, hidden: bool, after: bool) {
    && (!hidden && !after ==> leaving == coming)
    && (hidden && !after ==> staying == 0 && coming == 0)
    && (!hidden && after ==> staying == 0 && leaving == 0)
  }

  ghost predicate BalancedFor(f: Files, c: Checkpoint, i: IcebergCommit, lookup: Compactions, r: Row) {
    Even(StayingRows(f, c, i, lookup)[r], LeavingRows(f, c, i, lookup)[r], AllRows(f, NewFiles(c, i))[r],
         Hidden(f, c, r.key), StaysHidden(f, c, i, lookup, r.key))
  }

  ghost predicate Balanced(f: Files, c: Checkpoint, i: IcebergCommit, lookup: Compactions) {
    forall r :: BalancedFor(f, c, i, lookup, r)
  }

  lemma EvenCounts(staying: nat, leaving: nat, coming: nat, hidden: bool, after: bool)
    ensures (if after then 0 else staying + coming) == (if hidden then 0 else staying + leaving)
            <==> Even(staying, leaving, coming, hidden, after)
  {
  }

  lemma RowBalanced(f: Files, c: Checkpoint, i: IcebergCommit, lookup: Compactions, r: Row)
    requires ApplyIceberg(c, i, lookup).Some? && UniqueLists(c, i)
    ensures Visible(f, ApplyIceberg(c, i, lookup).value, r) == Visible(f, c, r) <==> BalancedFor(f, c, i, lookup, r)
  {
    RowsBeforeLanding(f, c, i, lookup);
    RowsAfterLanding(f, c, i, lookup);
    KeysAfterLanding(f, c, i, lookup, r.key);
    EvenCounts(StayingRows(f, c, i, lookup)[r], LeavingRows(f, c, i, lookup)[r], AllRows(f, NewFiles(c, i))[r],
               Hidden(f, c, r.key), StaysHidden(f, c, i, lookup, r.key));
  }

  /** Any Iceberg commit that lands leaves the visible rows alone exactly when it is balanced for every row. */
  lemma LandingBalanced(f: Files, c: Checkpoint, i: IcebergCommit, lookup: Compactions)
    requires ApplyIceberg(c, i, lookup).Some? && UniqueLists(c, i)
    ensures SameView(f, c, f, ApplyIceberg(c, i, lookup).value) <==> Balanced(f, c, i, lookup)
  {
    forall r
      ensures Visible(f, ApplyIceberg(c, i, lookup).value, r) == Visible(f, c, r) <==> BalancedFor(f, c, i, lookup, r)
    {
      RowBalanced(f, c, i, lookup, r);
    }
  }

  // ---------------------------------------- a compaction with whatever list it loaded

  /** The commit lists the new parquet file, whatever else it lists or lacks, and brings the remaining deletes. */
  predicate Brings(j: Job) {
    && UniquePaths(j.iceberg.metadata.files) && j.parquet.path in PathSet(j.iceberg.metadata.files)
    && (j.remaining == {} ==> j.iceberg.deletesTableInfo.None?)
    && (j.remaining != {} ==> j.iceberg.deletesTableInfo.Some? && j.iceberg.deletesTableInfo.value.files == [j.segment])
  }

  /** The new files that are not the job's own. */
  function OtherFiles(j: Job, c: Checkpoint): seq<FileDesc> {
    RemoveFiles(NewFiles(c, j.iceberg), [j.parquet.path])
  }

  /** How often the job writes a row. */
  function Copies(j: Job, f: Files, r: Row): nat {
    if r.hasId && !Applied(j, f, r.key) then AllRows(f, j.item.speedboatFiles)[r] else 0
  }

  /** The key hides rows after the landing: it remains, or a delete file that no listed compaction names holds it. */
  predicate HidesLater(j: Job, f: Files, c: Checkpoint, lookup: Compactions, k: string) {
    || (k in j.remaining && j.segment !in Named(j.iceberg, lookup).1)
    || exists x :: x in DeleteFiles(c) && x !in Named(j.iceberg, lookup).1 && k in KeysIn(f, x)
  }

  predicate JobBalancedFor(j: Job, f: Files, c: Checkpoint, lookup: Compactions, r: Row) {
    Even(StayingRows(f, c, j.iceberg, lookup)[r], LeavingRows(f, c, j.iceberg, lookup)[r],
         AllRows(f, OtherFiles(j, c))[r] + Copies(j, f, r), Hidden(f, c, r.key), HidesLater(j, f, c, lookup, r.key))
  }

  /** What a compaction must meet: what it and the files that its list brings put in is what it, the other listed
      compactions and the gaps of its list take out, row by row. */
  ghost predicate JobBalanced(j: Job, f: Files, c: Checkpoint, lookup: Compactions) {
    forall r :: JobBalancedFor(j, f, c, lookup, r)
  }

  lemma OwnFile(j: Job, c: Checkpoint)
    requires Brings(j) && j.parquet.path !in CurrentPaths(c)
    ensures var own := Filter(NewFiles(c, j.iceberg), (d: FileDesc) => Listed([j.parquet.path], d));
            UniquePaths(own) && PathSet(own) == PathSet([j.parquet])
  {
    var own := Filter(NewFiles(c, j.iceberg), (d: FileDesc) => Listed([j.parquet.path], d));
    RemoveFilesMeaning(j.iceberg.metadata.files, Paths(IcebergFiles(c)));
    FilterUniquePaths(NewFiles(c, j.iceberg), (d: FileDesc) => Listed([j.parquet.path], d));
    PathsListed(IcebergFiles(c), j.parquet.path);
    var d :| d in j.iceberg.metadata.files && d.path == j.parquet.path;
    assert d in NewFiles(c, j.iceberg) && d in own;
    assert j.parquet in [j.parquet];
  }

  lemma ComingRows(j: Job, f: Files, g: Files, c: Checkpoint, r: Row)
    requires Brings(j) && Writes(j, f, g, c)
    ensures AllRows(g, NewFiles(c, j.iceberg))[r] == AllRows(f, OtherFiles(j, c))[r] + Copies(j, f, r)
  {
    var own := Filter(NewFiles(c, j.iceberg), (d: FileDesc) => Listed([j.parquet.path], d));
    FilterSplit(g, NewFiles(c, j.iceberg), [j.parquet.path]);
    RemoveFilesMeaning(NewFiles(c, j.iceberg), [j.parquet.path]);
    SameRows(f, g, OtherFiles(j, c));
    OwnFile(j, c);
    AllRowsSame(g, own, [j.parquet]);
    AllRowsOne(g, j.parquet);
  }

  lemma CurrentSame(j: Job, f: Files, g: Files, c: Checkpoint, fs: seq<FileDesc>)
    requires Writes(j, f, g, c) && forall d :: d in fs ==> d.path in CurrentPaths(c)
    ensures AllRows(g, fs) == AllRows(f, fs)
  {
    SameRows(f, g, fs);
  }

  lemma StayingSame(j: Job, f: Files, g: Files, c: Checkpoint, lookup: Compactions)
    requires Writes(j, f, g, c)
    ensures StayingRows(g, c, j.iceberg, lookup) == StayingRows(f, c, j.iceberg, lookup)
  {
    var ice := Filter(IcebergFiles(c), (d: FileDesc) => Listed(Paths(j.iceberg.metadata.files), d));
    var sb := RemoveFiles(SpeedboatFiles(c), Named(j.iceberg, lookup).0);
    CurrentSame(j, f, g, c, ice);
    CurrentSame(j, f, g, c, sb);
  }

  lemma KeysLater(j: Job, f: Files, g: Files, c: Checkpoint, lookup: Compactions, k: string)
    requires Brings(j) && Writes(j, f, g, c)
    ensures StaysHidden(g, c, j.iceberg, lookup, k) <==> HidesLater(j, f, c, lookup, k)
  {
    if x :| Deletes(c, j.iceberg, x) && x !in Named(j.iceberg, lookup).1 && k in KeysIn(g, x) {
      if x != j.segment { assert x in DeleteFiles(c) && k in KeysIn(f, x); }
    }
    if k in j.remaining && j.segment !in Named(j.iceberg, lookup).1 {
      assert Deletes(c, j.iceberg, j.segment) && k in KeysIn(g, j.segment);
    }
    if x :| x in DeleteFiles(c) && x !in Named(j.iceberg, lookup).1 && k in KeysIn(f, x) {
      assert Deletes(c, j.iceberg, x) && k in KeysIn(g, x);
    }
  }

  lemma SeenBeforeLanding(f: Files, c: Checkpoint, i: IcebergCommit, lookup: Compactions, r: Row)
    ensures Visible(f, c, r)
            == if Hidden(f, c, r.key) then 0 else StayingRows(f, c, i, lookup)[r] + LeavingRows(f, c, i, lookup)[r]
  {
    RowsBeforeLanding(f, c, i, lookup);
  }

  lemma SeenAfterLanding(j: Job, f: Files, g: Files, c: Checkpoint, lookup: Compactions, r: Row)
    requires Brings(j) && ApplyIceberg(c, j.iceberg, lookup).Some? && Writes(j, f, g, c)
    requires UniquePaths(IcebergFiles(c))
    ensures Visible(g, ApplyIceberg(c, j.iceberg, lookup).value, r)
            == if HidesLater(j, f, c, lookup, r.key) then 0
               else StayingRows(f, c, j.iceberg, lookup)[r] + (AllRows(f, OtherFiles(j, c))[r] + Copies(j, f, r))
  {
    RowsAfterLanding(g, c, j.iceberg, lookup);
    StayingSame(j, f, g, c, lookup);
    ComingRows(j, f, g, c, r);
    KeysAfterLanding(g, c, j.iceberg, lookup, r.key);
    KeysLater(j, f, g, c, lookup, r.key);
  }

  lemma JobRowBalanced(j: Job, f: Files, g: Files, c: Checkpoint, lookup: Compactions, r: Row)
    requires Brings(j) && ApplyIceberg(c, j.iceberg, lookup).Some? && Writes(j, f, g, c)
    requires UniquePaths(IcebergFiles(c))
    ensures Visible(g, ApplyIceberg(c, j.iceberg, lookup).value, r) == Visible(f, c, r)
            <==> JobBalancedFor(j, f, c, lookup, r)
  {
    SeenBeforeLanding(f, c, j.iceberg, lookup, r);
    SeenAfterLanding(j, f, g, c, lookup, r);
    EvenCounts(StayingRows(f, c, j.iceberg, lookup)[r], LeavingRows(f, c, j.iceberg, lookup)[r],
               AllRows(f, OtherFiles(j, c))[r] + Copies(j, f, r), Hidden(f, c, r.key),
               HidesLater(j, f, c, lookup, r.key));
  }

  /** A compaction that lands with any list and any further compactions leaves the visible rows alone exactly when it
      is balanced for every row. */
  lemma CompactionBalanced(j: Job, f: Files, g: Files, c: Checkpoint, lookup: Compactions)
    requires Brings(j) && ApplyIceberg(c, j.iceberg, lookup).Some? && Writes(j, f, g, c)
    requires UniquePaths(IcebergFiles(c))
    ensures SameView(f, c, g, ApplyIceberg(c, j.iceberg, lookup).value) <==> JobBalanced(j, f, c, lookup)
  {
    forall r
      ensures Visible(g, ApplyIceberg(c, j.iceberg, lookup).value, r) == Visible(f, c, r)
              <==> JobBalancedFor(j, f, c, lookup, r)
    {
      JobRowBalanced(j, f, g, c, lookup, r);
    }
  }
}
