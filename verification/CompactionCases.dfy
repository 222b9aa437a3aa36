/** A run of the protocol with two compactions whose work items hold the same file.  The first one lands while its
    item is still in place; it keeps the visible rows that have ids.  The second one lands after that: a row is there
    twice, and a deleted row comes back.  Each action uses one new id for all the records that it creates. */
module CompactionCases {
  import opened Prelude
  import opened Schemas
  import opened FileSets
  import opened Checkpoints
  import opened Protocol
  import opened ProtocolSafety
  import opened ProtocolRuns
  import opened ExactlyOnce
  import opened RunTheorems
  import opened CompactionRows
  import opened CompactionLists
  import opened CompactionRuns
  import opened RunSteps

  // -------------------------------------------------------------- the commits

  const DATA := FileDesc("s1", Schema([]), 1)
  const PARQUET_1 := FileDesc("p1", Schema([]), 1)
  const PARQUET_2 := FileDesc("p2", Schema([]), 1)

  /** The ids of the two work items, of their compactions, and of the checkpoints they are made from. */
  const FIRST := Digits(5)
  const SECOND := Digits(9)

  const INSERT := SpeedboatCommit([TableInfo("commit", [], ["s1"], [1], Some(Schema([])))], None)
  const DELETE := SpeedboatCommit([TableInfo("delete", [], ["d2"], [1], None)], None)

  const COMPACTION_1 := CompactionCommit(["s1"], [], "p1", FIRST, FIRST)
  const COMPACTION_2 := CompactionCommit(["s1"], ["d2"], "p2", SECOND, SECOND)

  function Metadata(fs: seq<FileDesc>): IcebergMetadata {
    IcebergMetadata(Schema([]), None, fs, [], [], [], [], [], [])
  }

  const ICEBERG_1 := IcebergCommit(Metadata([PARQUET_1]), None, [FIRST])
  const ICEBERG_2 := IcebergCommit(Metadata([PARQUET_1, PARQUET_2]), None, [SECOND])

  // ---------------------------------------------------------- the checkpoints

  const EMPTY := NewCheckpoint("t", Digits(1))
  const INSERTED := EMPTY.(id := FIRST, speedboat := Some([DATA]), deletes := Some([]))
  const DELETED := INSERTED.(id := SECOND, deletes := Some(["d2"]))

  lemma MergeEmpty()
    ensures MergeFrom(Schema([]), Schema([])) == Some(Schema([]))
  {
  }

  lemma InsertPayload()
    ensures Payload(INSERT.typeFiles[0]) == Some([DATA])
  {
    assert SegmentFiles(INSERT.typeFiles[0]) == [("s1", 1)];
    assert Payload(INSERT.typeFiles[0]).value == [DATA];
  }

  lemma InsertApplies()
    ensures ApplySpeedboat(EMPTY.(id := FIRST), INSERT, map[]) == Some(INSERTED)
  {
    MergeEmpty();
    InsertPayload();
    var start := EMPTY.(id := FIRST, speedboat := Some([]), deletes := Some([]));
    assert MergeFiles([], [DATA]) == [DATA] by {
      assert [DATA][..0] == [] && [] + [DATA] == [DATA];
    }
    assert INSERT.typeFiles[..0] == [];
    assert ApplyTableInfos(start, []) == Some(start);
    assert ApplyTableInfo(start, INSERT.typeFiles[0]) == Some(INSERTED);
  }

  lemma DeleteApplies()
    ensures ApplySpeedboat(INSERTED.(id := SECOND), DELETE, map[]) == Some(DELETED)
  {
    var start := INSERTED.(id := SECOND);
    assert DELETE.typeFiles[..0] == [];
    assert ApplyTableInfos(start, []) == Some(start);
    assert [] + ["d2"] == ["d2"];
    assert ApplyTableInfo(start, DELETE.typeFiles[0]) == Some(DELETED);
  }

  // --------------------------------------------------------------- the actions

  predicate Does(acts: seq<Action>, i: nat, a: Action) { i < |acts| && acts[i] == a }

  function Lands1(): Action {
    IcebergAction(ICEBERG_1, Digits(12), Digits(12), Digits(12), [Replacement(FIRST, Digits(15), Digits(15))], 8, 8)
  }

  function Lands2(): Action {
    IcebergAction(ICEBERG_2, Digits(24), Digits(24), Digits(24), [Replacement(SECOND, Digits(27), Digits(27))], 9, 9)
  }

  /** Rows are inserted and checkpointed, and the first item is taken. */
  predicate Opens(acts: seq<Action>) {
    && |acts| == 10
    && Does(acts, 0, SpeedboatAction(INSERT, Digits(4), Digits(4), 0))
    && Does(acts, 1, StandardAction([Digits(4)], 1, 1, FIRST, true, 1, FIRST))
    && Does(acts, 2, TakeCompaction(2))
  }

  /** A delete is checkpointed after that, and the second item is taken; then both land. */
  predicate Scripted(acts: seq<Action>) {
    && Opens(acts)
    && Does(acts, 3, SpeedboatAction(DELETE, Digits(8), Digits(8), 3))
    && Does(acts, 4, StandardAction([Digits(8)], 4, 4, SECOND, true, 4, SECOND))
    && Does(acts, 5, TakeCompaction(5))
    && Does(acts, 6, CompactionAction(COMPACTION_1))
    && Does(acts, 7, CompactionAction(COMPACTION_2))
    && Does(acts, 8, Lands1())
    && Does(acts, 9, Lands2())
  }

  lemma ScriptExists() returns (acts: seq<Action>)
    ensures Scripted(acts)
  {
    acts := [
      SpeedboatAction(INSERT, Digits(4), Digits(4), 0), StandardAction([Digits(4)], 1, 1, FIRST, true, 1, FIRST),
      TakeCompaction(2),
      SpeedboatAction(DELETE, Digits(8), Digits(8), 3), StandardAction([Digits(8)], 4, 4, SECOND, true, 4, SECOND),
      TakeCompaction(5),
      CompactionAction(COMPACTION_1), CompactionAction(COMPACTION_2), Lands1(), Lands2()];
  }

  // --------------------------------------------------------- up to the landings

  /** A world of the run: how long its keys are, its latest checkpoint, and the compactions announced. */
  ghost predicate At(w: World, n: nat, c: Checkpoint, lookup: Compactions) {
    Below(w, n) && Current(w) == c && w.compactions == lookup && w.table == "t"
  }

  /** No compaction item is pending. */
  predicate Idle(w: World) { CompactionWork in w.pointers && w.pointers[CompactionWork].entityId == NO_WORK_ITEM }

  /** The commit waits for its checkpoint. */
  predicate Waits(w: World, id: string, c: SpeedboatCommit) {
    id in w.speedboats && w.speedboats[id] == c && Pending(w.trackers, SpeedboatCheckpointed, [id])
  }

  lemma InitAt()
    ensures At(Init("t", Digits(1), 0), 3, EMPTY, map[]) && Idle(Init("t", Digits(1), 0))
  {
    NameLength("t", Digits(1));
    assert CheckpointName(EMPTY) == NameOf("t", Digits(1));
  }

  lemma StartedRun(acts: seq<Action>) returns (h: seq<World>)
    ensures IsRun(h, acts) && At(h[0], 3, EMPTY, map[]) && Idle(h[0])
  {
    DigitsGenerated(1);
    InitAt();
    h := WorldsOf(Init("t", Digits(1), 0), acts);
    WorldsRun("t", Digits(1), 0, acts);
    WorldsStart(Init("t", Digits(1), 0), acts);
  }

  predicate Storable(k: SpeedboatCommit) {
    |k.typeFiles| > 0 && forall i :: 0 <= i < |k.typeFiles| && IsData(k.typeFiles[i]) ==> k.typeFiles[i].schema.Some?
  }

  lemma BothStorable()
    ensures Storable(INSERT) && Storable(DELETE)
  {
  }

  lemma Stores(h: seq<World>, acts: seq<Action>, i: nat, n: nat, id: string, k: SpeedboatCommit, c: Checkpoint)
    requires IsRun(h, acts) && Does(acts, i, SpeedboatAction(k, id, id, i)) && Storable(k)
    requires At(h[i], n, c, map[]) && Idle(h[i]) && GeneratedId(id) && |id| > n
    ensures At(h[i + 1], |id|, c, map[]) && Idle(h[i + 1]) && Waits(h[i + 1], id, k)
  {
    SpeedboatHappens(h, acts, i, n, k, id);
  }

  lemma Updates(h: seq<World>, acts: seq<Action>, i: nat, n: nat, id: string, newId: string, k: SpeedboatCommit,
                c: Checkpoint, d: Checkpoint)
    requires IsRun(h, acts) && Does(acts, i, StandardAction([id], i, i, newId, true, i, newId))
    requires At(h[i], n, c, map[]) && Idle(h[i]) && Waits(h[i], id, k) && GeneratedId(newId) && |newId| > n
    requires ApplySpeedboat(c.(id := newId), k, map[]) == Some(d)
    ensures At(h[i + 1], |newId| + 2, d, map[]) && Checkpointed(h[i], h[i + 1], |newId| + 2, d, newId)
  {
    StandardHappens(h, acts, i, n, id, newId, d);
  }

  lemma Takes(h: seq<World>, acts: seq<Action>, i: nat, n: nat, id: string, c: Checkpoint)
    requires IsRun(h, acts) && i > 0 && Does(acts, i, TakeCompaction(i)) && GeneratedId(id) && |id| <= n
    requires At(h[i], n, c, map[]) && Checkpointed(h[i - 1], h[i], n, c, id)
    ensures At(h[i + 1], n, c, map[]) && Idle(h[i + 1])
  {
    GeneratedIdFacts(id);
    TakeHappens(h, acts, i, n);
  }

  lemma Records(h: seq<World>, acts: seq<Action>, i: nat, n: nat, k: CompactionCommit, c: Checkpoint,
                lookup: Compactions)
    requires IsRun(h, acts) && Does(acts, i, CompactionAction(k)) && At(h[i], n, c, lookup)
    requires |k.compactionId| > 0 && k.compactionId !in lookup
    ensures At(h[i + 1], n, c, lookup[k.compactionId := k])
  {
    RecordHappens(h, acts, i, n, k);
  }

  lemma Inserts(h: seq<World>, acts: seq<Action>, i: nat)
    requires IsRun(h, acts) && Does(acts, i, SpeedboatAction(INSERT, Digits(4), Digits(4), i))
    requires At(h[i], 3, EMPTY, map[]) && Idle(h[i])
    ensures At(h[i + 1], 4, EMPTY, map[]) && Idle(h[i + 1]) && Waits(h[i + 1], Digits(4), INSERT)
  {
    DigitsGenerated(4);
    BothStorable();
    Stores(h, acts, i, 3, Digits(4), INSERT, EMPTY);
  }

  lemma RunsTo1(h: seq<World>, acts: seq<Action>)
    requires IsRun(h, acts) && Does(acts, 0, SpeedboatAction(INSERT, Digits(4), Digits(4), 0))
    requires At(h[0], 3, EMPTY, map[]) && Idle(h[0])
    ensures At(h[1], 4, EMPTY, map[]) && Idle(h[1]) && Waits(h[1], Digits(4), INSERT)
  {
    Inserts(h, acts, 0);
  }

  lemma RunsTo2(h: seq<World>, acts: seq<Action>)
    requires IsRun(h, acts) && Opens(acts)
    requires At(h[1], 4, EMPTY, map[]) && Idle(h[1]) && Waits(h[1], Digits(4), INSERT)
    ensures At(h[2], 7, INSERTED, map[]) && Checkpointed(h[1], h[2], 7, INSERTED, FIRST)
  {
    DigitsGenerated(5);
    InsertApplies();
    Updates(h, acts, 1, 4, Digits(4), FIRST, INSERT, EMPTY, INSERTED);
  }

  lemma RunsTo3(h: seq<World>, acts: seq<Action>)
    requires IsRun(h, acts) && Opens(acts)
    requires At(h[2], 7, INSERTED, map[]) && Checkpointed(h[1], h[2], 7, INSERTED, FIRST)
    ensures At(h[3], 7, INSERTED, map[]) && Idle(h[3])
  {
    DigitsGenerated(5);
    Takes(h, acts, 2, 7, FIRST, INSERTED);
  }

  lemma RunsTo5(h: seq<World>, acts: seq<Action>)
    requires IsRun(h, acts) && Scripted(acts) && At(h[3], 7, INSERTED, map[]) && Idle(h[3])
    ensures At(h[4], 8, INSERTED, map[]) && Waits(h[4], Digits(8), DELETE)
    ensures At(h[5], 11, DELETED, map[]) && Checkpointed(h[4], h[5], 11, DELETED, SECOND)
  {
    DigitsGenerated(8);
    BothStorable();
    Stores(h, acts, 3, 7, Digits(8), DELETE, INSERTED);
    DigitsGenerated(9);
    DeleteApplies();
    Updates(h, acts, 4, 8, Digits(8), SECOND, DELETE, INSERTED, DELETED);
  }

  lemma RunsTo6(h: seq<World>, acts: seq<Action>)
    requires IsRun(h, acts) && Scripted(acts)
    requires At(h[5], 11, DELETED, map[]) && Checkpointed(h[4], h[5], 11, DELETED, SECOND)
    ensures At(h[6], 11, DELETED, map[])
  {
    DigitsGenerated(9);
    Takes(h, acts, 5, 11, SECOND, DELETED);
  }

  const ANNOUNCED_1: Compactions := map[FIRST := COMPACTION_1]
  const ANNOUNCED_2: Compactions := ANNOUNCED_1[SECOND := COMPACTION_2]

  lemma RunsTo7(h: seq<World>, acts: seq<Action>)
    requires IsRun(h, acts) && Does(acts, 6, CompactionAction(COMPACTION_1)) && At(h[6], 11, DELETED, map[])
    ensures At(h[7], 11, DELETED, ANNOUNCED_1)
  {
    DigitsGenerated(5);
    Records(h, acts, 6, 11, COMPACTION_1, DELETED, map[]);
  }

  lemma RunsTo8(h: seq<World>, acts: seq<Action>)
    requires IsRun(h, acts) && Does(acts, 7, CompactionAction(COMPACTION_2)) && At(h[7], 11, DELETED, ANNOUNCED_1)
    ensures At(h[8], 11, DELETED, ANNOUNCED_2)
  {
    DigitsGenerated(9);
    assert |FIRST| == 5 && |SECOND| == 9;
    Records(h, acts, 7, 11, COMPACTION_2, DELETED, ANNOUNCED_1);
  }

  /** The run before the landings. */
  ghost predicate Prepared(h: seq<World>, acts: seq<Action>) {
    && IsRun(h, acts) && Scripted(acts) && At(h[8], 11, DELETED, ANNOUNCED_2)
    && At(h[1], 4, EMPTY, map[]) && Checkpointed(h[1], h[2], 7, INSERTED, FIRST)
    && At(h[4], 8, INSERTED, map[]) && Checkpointed(h[4], h[5], 11, DELETED, SECOND)
    && Waits(h[4], Digits(8), DELETE)
  }

  lemma RunsToTaken(h: seq<World>, acts: seq<Action>)
    requires IsRun(h, acts) && Opens(acts) && At(h[0], 3, EMPTY, map[]) && Idle(h[0])
    ensures At(h[1], 4, EMPTY, map[]) && Checkpointed(h[1], h[2], 7, INSERTED, FIRST)
    ensures At(h[3], 7, INSERTED, map[]) && Idle(h[3])
  {
    RunsTo1(h, acts);
    RunsTo2(h, acts);
    RunsTo3(h, acts);
  }

  lemma RunsToAnnounced(h: seq<World>, acts: seq<Action>)
    requires IsRun(h, acts) && Scripted(acts) && At(h[3], 7, INSERTED, map[]) && Idle(h[3])
    ensures At(h[4], 8, INSERTED, map[]) && Waits(h[4], Digits(8), DELETE)
    ensures Checkpointed(h[4], h[5], 11, DELETED, SECOND) && At(h[8], 11, DELETED, ANNOUNCED_2)
  {
    RunsTo5(h, acts);
    RunsTo6(h, acts);
    RunsTo7(h, acts);
    RunsTo8(h, acts);
  }

  lemma PreparedRun() returns (h: seq<World>, acts: seq<Action>)
    ensures Prepared(h, acts)
  {
    acts := ScriptExists();
    h := StartedRun(acts);
    RunsToTaken(h, acts);
    RunsToAnnounced(h, acts);
  }

  // -------------------------------------------------------------- the landings

  const LANDED_1 := DELETED.(id := Digits(12), iceberg := Some(Metadata([PARQUET_1])), speedboat := Some([]))
  const LANDED_2 := LANDED_1.(id := Digits(24), iceberg := Some(Metadata([PARQUET_1, PARQUET_2])), deletes := Some([]))

  lemma RemovedOne(id: string, lookup: Compactions)
    requires id in lookup
    ensures Removed([id], lookup) == Some((lookup[id].removedSpeedboatFiles, lookup[id].removedDeleteFiles))
  {
    assert [id][..0] == [];
    assert [] + lookup[id].removedSpeedboatFiles == lookup[id].removedSpeedboatFiles;
    assert [] + lookup[id].removedDeleteFiles == lookup[id].removedDeleteFiles;
  }

  lemma FirstApplies()
    ensures ApplyIceberg(DELETED.(id := Digits(12)), ICEBERG_1, ANNOUNCED_2) == Some(LANDED_1)
  {
    AnnouncedFirst();
    MergeEmpty();
    RemovedOne(FIRST, ANNOUNCED_2);
    assert RemoveFiles([DATA], ["s1"]) == [] by { FilterNone([DATA], (d: FileDesc) => !Listed(["s1"], d)); }
    assert Filter(["d2"], (x: string) => x !in []) == ["d2"] by { FilterAll(["d2"], (x: string) => x !in []); }
  }

  lemma SecondApplies()
    ensures ApplyIceberg(LANDED_1.(id := Digits(24)), ICEBERG_2, ANNOUNCED_2) == Some(LANDED_2)
  {
    MergeEmpty();
    RemovedOne(SECOND, ANNOUNCED_2);
    assert RemoveFiles([], ["s1"]) == [];
    assert Filter(["d2"], (x: string) => x !in ["d2"]) == [] by { FilterNone(["d2"], (x: string) => x !in ["d2"]); }
  }

  lemma Selects(fs: seq<FileDesc>, i: nat)
    requires i < |fs|
    ensures SelectFile(fs, fs[i].path).Some?
    decreases i
  {
    if i == 0 {
      assert StartsAt(fs[0].path, 0, fs[0].path) by { assert fs[0].path[0..|fs[0].path|] == fs[0].path; }
    } else {
      Selects(fs[1..], i - 1);
    }
  }

  /** The checkpoint that the compaction replaces is still stored. */
  lemma CheckpointReplaces(h: seq<World>, acts: seq<Action>, i: nat, n: nat, k: CompactionCommit, c: Checkpoint,
                           ice: IcebergCommit, p: nat)
    requires IsRun(h, acts) && i <= n < |h| && h[n].table == "t"
    requires CheckpointName(c) in h[i].checkpoints && h[i].checkpoints[CheckpointName(c)] == c
    requires c.tableName == "t" && c.id == k.checkpointIdToReplace && c.originalId.None? && c.speedboat.Some?
    requires p < |ice.metadata.files| && ice.metadata.files[p].path == k.parquetFileName
    ensures ReplacementApplies(h[n], k, ice)
  {
    StoredCheckpointsStay(h, acts, i, n, CheckpointName(c));
    Selects(ice.metadata.files, p);
  }

  lemma AnnouncedFirst()
    ensures FIRST in ANNOUNCED_2 && ANNOUNCED_2[FIRST] == COMPACTION_1 && UniquePaths(ICEBERG_1.metadata.files)
  {
    DigitsGenerated(5);
    DigitsGenerated(9);
  }

  lemma AnnouncedSecond()
    ensures SECOND in ANNOUNCED_2 && ANNOUNCED_2[SECOND] == COMPACTION_2 && UniquePaths(ICEBERG_2.metadata.files)
  {
  }

  lemma FirstReplaces(h: seq<World>, acts: seq<Action>)
    requires IsRun(h, acts) && |h| == 11 && Checkpointed(h[1], h[2], 7, INSERTED, FIRST)
    requires At(h[8], 11, DELETED, ANNOUNCED_2)
    ensures Replaces(h[8], ICEBERG_1)
  {
    AnnouncedFirst();
    CheckpointReplaces(h, acts, 2, 8, COMPACTION_1, INSERTED, ICEBERG_1, 0);
  }

  lemma OneReplaces(c: IcebergCommit, k: string, id: string)
    requires c.compactions == [k]
    ensures ReplacesAll(c, [Replacement(k, id, id)])
  {
    var rs := [Replacement(k, id, id)];
    assert rs[0] in rs && k in c.compactions;
  }

  /** New ids for a commit with one replacement. */
  lemma OneNew(w: World, n: nat, id: string, k: string, newId: string)
    requires w.table == "t" && k in w.compactions && |k| <= n && GeneratedId(id) && GeneratedId(newId)
    requires n < |id| && |id| + 2 < |newId|
    ensures NewIds(w, n, id, [Replacement(k, newId, newId)])
    ensures LandedLength(w, id, [Replacement(k, newId, newId)])
            == |newId| + 3 + |w.compactions[k].checkpointIdToReplace|
  {
    NameLength("t", id);
    GrowsMore("t", w.compactions, |NameOf("t", id)|, [], k, newId);
    assert [] + [Replacement(k, newId, newId)] == [Replacement(k, newId, newId)];
  }

  lemma FirstHappens(h: seq<World>, acts: seq<Action>)
    requires IsRun(h, acts) && Does(acts, 8, Lands1())
    requires At(h[8], 11, DELETED, ANNOUNCED_2) && Replaces(h[8], ICEBERG_1)
    ensures Landed(h[8], h[9], 23, LANDED_1)
  {
    DigitsGenerated(5);
    DigitsGenerated(12);
    DigitsGenerated(15);
    AnnouncedFirst();
    OneNew(h[8], 11, Digits(12), FIRST, Digits(15));
    OneReplaces(ICEBERG_1, FIRST, Digits(15));
    FirstApplies();
    IcebergHappens(h, acts, 8, 11, ICEBERG_1, [Replacement(FIRST, Digits(15), Digits(15))], Digits(12), LANDED_1);
  }

  lemma SecondReplaces(h: seq<World>, acts: seq<Action>)
    requires IsRun(h, acts) && |h| == 11 && Checkpointed(h[4], h[5], 11, DELETED, SECOND)
    requires At(h[9], 23, LANDED_1, ANNOUNCED_2)
    ensures Replaces(h[9], ICEBERG_2)
  {
    AnnouncedSecond();
    CheckpointReplaces(h, acts, 5, 9, COMPACTION_2, DELETED, ICEBERG_2, 1);
  }

  lemma SecondHappens(h: seq<World>, acts: seq<Action>)
    requires IsRun(h, acts) && Does(acts, 9, Lands2())
    requires At(h[9], 23, LANDED_1, ANNOUNCED_2) && Replaces(h[9], ICEBERG_2)
    ensures Current(h[10]) == LANDED_2 && h[10] != h[9]
  {
    DigitsGenerated(9);
    DigitsGenerated(24);
    DigitsGenerated(27);
    AnnouncedSecond();
    OneNew(h[9], 23, Digits(24), SECOND, Digits(27));
    OneReplaces(ICEBERG_2, SECOND, Digits(27));
    SecondApplies();
    IcebergHappens(h, acts, 9, 23, ICEBERG_2, [Replacement(SECOND, Digits(27), Digits(27))], Digits(24), LANDED_2);
  }

  lemma LandedAt(w: World, v: World)
    requires At(w, 11, DELETED, ANNOUNCED_2) && Landed(w, v, 23, LANDED_1)
    ensures At(v, 23, LANDED_1, ANNOUNCED_2) && v != w
  {
  }

  lemma BothHappen(h: seq<World>, acts: seq<Action>)
    requires Prepared(h, acts)
    ensures At(h[9], 23, LANDED_1, ANNOUNCED_2) && h[9] != h[8]
    ensures Current(h[10]) == LANDED_2 && h[10] != h[9]
  {
    FirstReplaces(h, acts);
    FirstHappens(h, acts);
    LandedAt(h[8], h[9]);
    SecondReplaces(h, acts);
    SecondHappens(h, acts);
  }

  // ------------------------------------------------------------------ the rows

  const K := Row("k", true, "")
  const L := Row("l", true, "")

  /** The row whose id may be null. */
  function M(hasId: bool): Row { Row("m", hasId, "") }

  function Data(hasId: bool): seq<Row> { [K, L, M(hasId)] }

  /** What the first compaction copies, and the second one; the latter leaves out the deleted row. */
  function Copied1(hasId: bool): seq<Row> { if hasId then [K, L, M(true)] else [K, L] }

  function Copied2(hasId: bool): seq<Row> { if hasId then [L, M(true)] else [L] }

  function Files0(hasId: bool): Files { Files(map["s1" := Data(hasId)], map["d2" := ["k"]]) }

  function Files1(hasId: bool): Files { Files0(hasId).(rows := Files0(hasId).rows["p1" := Copied1(hasId)]) }

  function Files2(hasId: bool): Files { Files1(hasId).(rows := Files1(hasId).rows["p2" := Copied2(hasId)]) }

  const JOB_1 := Job(ItemFromCheckpoint(INSERTED), COMPACTION_1, ICEBERG_1, PARQUET_1, "g1", {})
  const JOB_2 := Job(ItemFromCheckpoint(DELETED), COMPACTION_2, ICEBERG_2, PARQUET_2, "g2", {})

  lemma CountFirst(hasId: bool, r: Row)
    ensures multiset(Copied1(hasId))[r] == if r.hasId then multiset(Data(hasId))[r] else 0
  {
  }

  lemma CountSecond(hasId: bool, r: Row)
    ensures multiset(Copied2(hasId))[r] == if r.hasId && r.key != "k" then multiset(Data(hasId))[r] else 0
  {
    assert multiset(Data(hasId)) == multiset{K, L, M(hasId)};
    assert K.key[0] == 'k' && L.key[0] == 'l' && M(hasId).key[0] == 'm';
  }

  lemma KeysOf(f: Files)
    requires f.deletes == map["d2" := ["k"]]
    ensures AllKeys(f, ["d2"]) == {"k"} && AllKeys(f, []) == {}
  {
    assert ["d2"][..0] == [];
  }

  lemma OnePath(d: FileDesc)
    ensures PathSet([d]) == {d.path}
  {
    assert d in [d];
  }

  lemma TwoPaths()
    ensures PathSet([PARQUET_1, PARQUET_2]) == {"p1", "p2"}
  {
    assert PARQUET_1 in [PARQUET_1, PARQUET_2] && PARQUET_2 in [PARQUET_1, PARQUET_2];
  }

  lemma FirstAnnounces()
    ensures Announces(JOB_1, DELETED, ANNOUNCED_2)
  {
    AnnouncedFirst();
    RemovedOne(FIRST, ANNOUNCED_2);
    OnePath(DATA);
    OnePath(PARQUET_1);
  }

  lemma SecondAnnounces()
    ensures Announces(JOB_2, LANDED_1, ANNOUNCED_2)
  {
    AnnouncedSecond();
    RemovedOne(SECOND, ANNOUNCED_2);
    OnePath(DATA);
    OnePath(PARQUET_1);
    TwoPaths();
  }

  lemma FirstWrites(hasId: bool)
    ensures Writes(JOB_1, Files0(hasId), Files1(hasId), DELETED)
  {
    OnePath(DATA);
    KeysOf(Files0(hasId));
    AllRowsOne(Files0(hasId), DATA);
    forall r
      ensures RowsIn(Files1(hasId), "p1")[r] == if r.hasId then AllRows(Files0(hasId), [DATA])[r] else 0
    {
      CountFirst(hasId, r);
    }
  }

  lemma SecondCopy(hasId: bool, r: Row)
    ensures RowsIn(Files2(hasId), "p2")[r] ==
            if r.hasId && r.key !in AllKeys(Files1(hasId), ["d2"]) then AllRows(Files1(hasId), [DATA])[r] else 0
  {
    KeysOf(Files1(hasId));
    AllRowsOne(Files1(hasId), DATA);
    CountSecond(hasId, r);
  }

  lemma OthersSame(f: Files, g: Files, path: string, rows: seq<Row>)
    requires g == f.(rows := f.rows[path := rows])
    ensures forall p :: p != path ==> RowsIn(g, p) == RowsIn(f, p)
    ensures forall d :: KeysIn(g, d) == KeysIn(f, d)
  {
  }

  lemma SecondWrites(hasId: bool)
    ensures Writes(JOB_2, Files1(hasId), Files2(hasId), LANDED_1)
  {
    OnePath(PARQUET_1);
    OthersSame(Files1(hasId), Files2(hasId), "p2", Copied2(hasId));
    forall r
      ensures RowsIn(Files2(hasId), "p2")[r] ==
              if r.hasId && r.key !in AllKeys(Files1(hasId), ["d2"]) then AllRows(Files1(hasId), [DATA])[r] else 0
    {
      SecondCopy(hasId, r);
    }
  }

  lemma SeenAtFirst(hasId: bool, r: Row)
    ensures Visible(Files0(hasId), DELETED, r) == if r.key == "k" then 0 else multiset(Data(hasId))[r]
  {
    KeysOf(Files0(hasId));
    AllRowsOne(Files0(hasId), DATA);
  }

  lemma SeenBetween(hasId: bool, r: Row)
    ensures Visible(Files1(hasId), LANDED_1, r) == if r.key == "k" then 0 else multiset(Copied1(hasId))[r]
  {
    KeysOf(Files1(hasId));
    AllRowsOne(Files1(hasId), PARQUET_1);
  }

  lemma SeenAtLast(hasId: bool, r: Row)
    ensures Visible(Files2(hasId), LANDED_2, r) == multiset(Copied1(hasId))[r] + multiset(Copied2(hasId))[r]
  {
    KeysOf(Files2(hasId));
    assert [PARQUET_1, PARQUET_2] == [PARQUET_1] + [PARQUET_2];
    AllRowsConcat(Files2(hasId), [PARQUET_1], [PARQUET_2]);
    AllRowsOne(Files2(hasId), PARQUET_1);
    AllRowsOne(Files2(hasId), PARQUET_2);
  }

  lemma FirstBounded(hasId: bool)
    ensures RemainingBounded(JOB_1, Files0(hasId)) && UniqueKeys(TableRows(Files0(hasId), DELETED))
  {
    KeysOf(Files0(hasId));
    AllRowsOne(Files0(hasId), DATA);
    assert multiset(Data(hasId)) == multiset{K, L, M(hasId)};
    assert K.key[0] == 'k' && L.key[0] == 'l' && M(hasId).key[0] == 'm';
  }

  // ----------------------------------------------------------------- the items

  lemma ItemsMade(h: seq<World>, acts: seq<Action>)
    requires Prepared(h, acts)
    ensures Made(h, 2, FIRST) && Made(h, 5, SECOND)
  {
    DigitsGenerated(5);
    DigitsGenerated(9);
    NewKey(h[1].compactionItems, 4, FIRST);
    NewKey(h[4].compactionItems, 8, SECOND);
  }

  lemma QuietSpares(h: seq<World>, acts: seq<Action>, k: nat, a: Action)
    requires |h| == |acts| + 1 && Does(acts, k, a) && Entries(a) == []
    ensures SparesStep(h[k], h[k + 1], acts[k], JOB_1.item)
  {
  }

  lemma DeleteSpares(h: seq<World>, acts: seq<Action>)
    requires |h| == |acts| + 1 && Does(acts, 4, StandardAction([Digits(8)], 4, 4, SECOND, true, 4, SECOND))
    requires Waits(h[4], Digits(8), DELETE) && h[5].speedboats == h[4].speedboats
    ensures SparesStep(h[4], h[5], acts[4], JOB_1.item)
  {
    assert Entries(acts[4]) == [Speedboat(Digits(8))];
  }

  lemma SparedMore(h: seq<World>, acts: seq<Action>, s: nat, n: nat, item: CompactionWorkItem)
    requires |h| == |acts| + 1 && s <= n < |acts| && SparedFrom(h, acts, s, n, item)
    requires SparesStep(h[n], h[n + 1], acts[n], item)
    ensures SparedFrom(h, acts, s, n + 1, item)
  {
  }

  lemma QuietSpared(h: seq<World>, acts: seq<Action>, n: nat, a: Action)
    requires |h| == |acts| + 1 && 2 <= n && Does(acts, n, a) && Entries(a) == []
             && SparedFrom(h, acts, 2, n, JOB_1.item)
    ensures SparedFrom(h, acts, 2, n + 1, JOB_1.item)
  {
    QuietSpares(h, acts, n, a);
    SparedMore(h, acts, 2, n, JOB_1.item);
  }

  lemma FirstSpared(h: seq<World>, acts: seq<Action>)
    requires |h| == |acts| + 1 && Scripted(acts) && Waits(h[4], Digits(8), DELETE) && h[5].speedboats == h[4].speedboats
    ensures SparedFrom(h, acts, 2, 8, JOB_1.item)
  {
    QuietSpared(h, acts, 2, TakeCompaction(2));
    QuietSpared(h, acts, 3, SpeedboatAction(DELETE, Digits(8), Digits(8), 3));
    DeleteSpares(h, acts);
    SparedMore(h, acts, 2, 4, JOB_1.item);
    QuietSpared(h, acts, 5, TakeCompaction(5));
    QuietSpared(h, acts, 6, CompactionAction(COMPACTION_1));
    QuietSpared(h, acts, 7, CompactionAction(COMPACTION_2));
  }

  lemma FirstLands(h: seq<World>, acts: seq<Action>, hasId: bool)
    requires Prepared(h, acts) && h[9] != h[8]
    ensures LandsItem(h, acts, 8, FIRST, JOB_1, Files0(hasId), Files1(hasId)) && Undisturbed(h, 8, JOB_1, Files0(hasId))
  {
    ItemsMade(h, acts);
    StoredItem(h, acts, 2, 8, FIRST);
    FirstAnnounces();
    FirstWrites(hasId);
  }

  lemma SecondLands(h: seq<World>, acts: seq<Action>, hasId: bool)
    requires Prepared(h, acts) && At(h[9], 23, LANDED_1, ANNOUNCED_2) && h[10] != h[9]
    ensures LandsItem(h, acts, 9, SECOND, JOB_2, Files1(hasId), Files2(hasId))
            && Undisturbed(h, 9, JOB_2, Files1(hasId))
  {
    ItemsMade(h, acts);
    StoredItem(h, acts, 5, 9, SECOND);
    SecondAnnounces();
    SecondWrites(hasId);
  }

  // -------------------------------------------------------------- what happens

  /** The run above, with the table's rows: both items land, and each holds the content of its own checkpoint. */
  ghost predicate TwoLandings(h: seq<World>, acts: seq<Action>, hasId: bool) {
    && IsRun(h, acts) && |acts| == 10 && Made(h, 2, FIRST) && Made(h, 5, SECOND)
    && LandsItem(h, acts, 8, FIRST, JOB_1, Files0(hasId), Files1(hasId)) && Undisturbed(h, 8, JOB_1, Files0(hasId))
    && LandsItem(h, acts, 9, SECOND, JOB_2, Files1(hasId), Files2(hasId)) && Undisturbed(h, 9, JOB_2, Files1(hasId))
    && Current(h[8]) == DELETED && Current(h[9]) == LANDED_1 && Current(h[10]) == LANDED_2
  }

  lemma LandingsHappen(hasId: bool) returns (h: seq<World>, acts: seq<Action>)
    ensures TwoLandings(h, acts, hasId) && SparedFrom(h, acts, 2, 8, JOB_1.item)
  {
    h, acts := PreparedRun();
    ItemsMade(h, acts);
    BothHappen(h, acts);
    FirstLands(h, acts, hasId);
    SecondLands(h, acts, hasId);
    FirstSpared(h, acts);
  }

  lemma FirstKeeps(hasId: bool)
    ensures Visible(Files0(hasId), DELETED, L) == Visible(Files1(hasId), LANDED_1, L) == 1
    ensures Visible(Files0(hasId), DELETED, M(hasId)) == 1
    ensures Visible(Files1(hasId), LANDED_1, M(hasId)) == if hasId then 1 else 0
  {
    SeenAtFirst(hasId, L);
    SeenAtFirst(hasId, M(hasId));
    SeenBetween(hasId, L);
    SeenBetween(hasId, M(hasId));
  }

  /** A compaction that meets every hypothesis, and keeps a row: the other row that it takes out is still there
      exactly when it has an id. */
  lemma RowWithoutIdLost(hasId: bool) returns (h: seq<World>, acts: seq<Action>)
    ensures TwoLandings(h, acts, hasId) && SparedFrom(h, acts, 2, 8, JOB_1.item)
    ensures RemainingBounded(JOB_1, Files0(hasId)) && UniqueKeys(TableRows(Files0(hasId), Current(h[8])))
    ensures Visible(Files0(hasId), Current(h[8]), L) == Visible(Files1(hasId), Current(h[9]), L) == 1
    ensures Visible(Files0(hasId), Current(h[8]), M(hasId)) == 1
    ensures Visible(Files1(hasId), Current(h[9]), M(hasId)) == if hasId then 1 else 0
  {
    h, acts := LandingsHappen(hasId);
    FirstBounded(hasId);
    FirstKeeps(hasId);
  }

  lemma SecondMoved()
    ensures !StillThere(JOB_2.item, LANDED_1)
  {
    OnePath(DATA);
  }

  lemma RowDoubled(hasId: bool)
    ensures Visible(Files1(hasId), LANDED_1, L) == 1 && Visible(Files2(hasId), LANDED_2, L) == 2
  {
    SeenBetween(hasId, L);
    SeenAtLast(hasId, L);
  }

  /** A file that two items hold is compacted twice: once the second one lands, its row is there twice. */
  lemma CompactedTwice(hasId: bool) returns (h: seq<World>, acts: seq<Action>)
    ensures TwoLandings(h, acts, hasId) && !StillThere(JOB_2.item, Current(h[9]))
    ensures Visible(Files1(hasId), Current(h[9]), L) == 1 && Visible(Files2(hasId), Current(h[10]), L) == 2
  {
    h, acts := LandingsHappen(hasId);
    SecondMoved();
    RowDoubled(hasId);
  }

  lemma RowBack(hasId: bool)
    ensures Visible(Files0(hasId), DELETED, K) == Visible(Files1(hasId), LANDED_1, K) == 0
    ensures Visible(Files2(hasId), LANDED_2, K) == 1
  {
    SeenAtFirst(hasId, K);
    SeenBetween(hasId, K);
    SeenAtLast(hasId, K);
  }

  /** The first item was made before the row was deleted, so that its compaction copies the row; the second item
      holds the delete file, so that its compaction takes that away: the deleted row comes back. */
  lemma DeletedRowReturns(hasId: bool) returns (h: seq<World>, acts: seq<Action>)
    ensures TwoLandings(h, acts, hasId)
    ensures Visible(Files0(hasId), Current(h[8]), K) == Visible(Files1(hasId), Current(h[9]), K) == 0
    ensures Visible(Files2(hasId), Current(h[10]), K) == 1
  {
    h, acts := LandingsHappen(hasId);
    RowBack(hasId);
  }
}
