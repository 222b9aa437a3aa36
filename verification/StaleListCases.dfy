/** A run of the protocol in which two compactors append to the Iceberg table at the same time.  The first one loads
    its list of files before the second one appends, and lands after it: the rows that only the second one wrote are
    gone, although their speedboat files have been taken out. */
module StaleListCases {
  import opened Prelude
  import opened Schemas
  import opened FileSets
  import opened Checkpoints
  import opened Protocol
  import opened ExactlyOnce
  import opened CompactionRows
  import opened CompactionLists
  import opened CompactionRuns
  import opened RunSteps
  import opened CompactionCases

  // -------------------------------------------------------------- the commits

  const DATA_2 := FileDesc("s2", Schema([]), 1)
  const INSERT_2 := SpeedboatCommit([TableInfo("commit", [], ["s2"], [1], Some(Schema([])))], None)

  /** The second compaction is of both files. */
  const WIDE := CompactionCommit(["s1", "s2"], [], "p2", SECOND, SECOND)
  const BOTH: Compactions := ANNOUNCED_1[SECOND := WIDE]

  /** What the second compactor loads: both parquet files and both compactions, the latest first.  The first one has
      loaded a list without the second parquet file; its commit is `ICEBERG_1`. */
  const FULL := IcebergCommit(Metadata([PARQUET_1, PARQUET_2]), None, [SECOND, FIRST])

  const GROWN := INSERTED.(id := SECOND, speedboat := Some([DATA, DATA_2]))
  const LANDED_FULL := GROWN.(id := Digits(12), iceberg := Some(FULL.metadata), speedboat := Some([]))
  const LANDED_STALE := LANDED_FULL.(id := Digits(37), iceberg := Some(Metadata([PARQUET_1])))

  lemma InsertMorePayload()
    ensures Payload(INSERT_2.typeFiles[0]) == Some([DATA_2])
  {
    assert SegmentFiles(INSERT_2.typeFiles[0]) == [("s2", 1)];
    assert Payload(INSERT_2.typeFiles[0]).value == [DATA_2];
  }

  lemma InsertMoreApplies()
    ensures ApplySpeedboat(INSERTED.(id := SECOND), INSERT_2, map[]) == Some(GROWN)
  {
    MergeEmpty();
    InsertMorePayload();
    OnePath(DATA);
    var start := INSERTED.(id := SECOND);
    assert MergeFiles([DATA], [DATA_2]) == [DATA, DATA_2] by {
      assert [DATA_2][..0] == [] && [DATA] + [DATA_2] == [DATA, DATA_2];
    }
    assert INSERT_2.typeFiles[..0] == [];
    assert ApplyTableInfos(start, []) == Some(start);
    assert ApplyTableInfo(start, INSERT_2.typeFiles[0]) == Some(GROWN);
  }

  lemma BothAnnounced()
    ensures FIRST != SECOND && FIRST in BOTH && BOTH[FIRST] == COMPACTION_1 && SECOND in BOTH && BOTH[SECOND] == WIDE
    ensures UniquePaths(FULL.metadata.files)
  {
    DigitsGenerated(5);
    DigitsGenerated(9);
  }

  lemma RemovedBoth()
    ensures Removed([SECOND, FIRST], BOTH) == Some((["s1", "s2", "s1"], []))
  {
    BothAnnounced();
    RemovedOne(SECOND, BOTH);
    assert [SECOND, FIRST][..1] == [SECOND];
    assert ["s1", "s2"] + ["s1"] == ["s1", "s2", "s1"];
  }

  lemma FullApplies()
    ensures ApplyIceberg(GROWN.(id := Digits(12)), FULL, BOTH) == Some(LANDED_FULL)
  {
    MergeEmpty();
    RemovedBoth();
    var ps := ["s1", "s2", "s1"];
    assert RemoveFiles([DATA, DATA_2], ps) == [] by { FilterNone([DATA, DATA_2], (d: FileDesc) => !Listed(ps, d)); }
  }

  lemma StaleApplies()
    ensures ApplyIceberg(LANDED_FULL.(id := Digits(37)), ICEBERG_1, BOTH) == Some(LANDED_STALE)
  {
    MergeEmpty();
    BothAnnounced();
    RemovedOne(FIRST, BOTH);
    assert RemoveFiles([], ["s1"]) == [];
  }

  // --------------------------------------------------------------- the actions

  const FULL_IDS := [Replacement(SECOND, Digits(15), Digits(15)), Replacement(FIRST, Digits(28), Digits(28))]
  const STALE_IDS := [Replacement(FIRST, Digits(40), Digits(40))]

  function LandsFull(): Action { IcebergAction(FULL, Digits(12), Digits(12), Digits(12), FULL_IDS, 8, 8) }

  function LandsStale(): Action { IcebergAction(ICEBERG_1, Digits(37), Digits(37), Digits(37), STALE_IDS, 9, 9) }

  /** More rows are inserted and checkpointed, and the second item is taken; it lands, and then the first one. */
  predicate Races(acts: seq<Action>) {
    && Opens(acts)
    && Does(acts, 3, SpeedboatAction(INSERT_2, Digits(8), Digits(8), 3))
    && Does(acts, 4, StandardAction([Digits(8)], 4, 4, SECOND, true, 4, SECOND))
    && Does(acts, 5, TakeCompaction(5))
    && Does(acts, 6, CompactionAction(COMPACTION_1))
    && Does(acts, 7, CompactionAction(WIDE))
    && Does(acts, 8, LandsFull())
    && Does(acts, 9, LandsStale())
  }

  lemma RaceExists() returns (acts: seq<Action>)
    ensures Races(acts)
  {
    acts := [
      SpeedboatAction(INSERT, Digits(4), Digits(4), 0), StandardAction([Digits(4)], 1, 1, FIRST, true, 1, FIRST),
      TakeCompaction(2),
      SpeedboatAction(INSERT_2, Digits(8), Digits(8), 3), StandardAction([Digits(8)], 4, 4, SECOND, true, 4, SECOND),
      TakeCompaction(5),
      CompactionAction(COMPACTION_1), CompactionAction(WIDE), LandsFull(), LandsStale()];
  }

  lemma MoreStorable()
    ensures Storable(INSERT_2)
  {
  }

  lemma RaceTo5(h: seq<World>, acts: seq<Action>)
    requires IsRun(h, acts) && Races(acts) && At(h[3], 7, INSERTED, map[]) && Idle(h[3])
    ensures At(h[4], 8, INSERTED, map[])
    ensures At(h[5], 11, GROWN, map[]) && Checkpointed(h[4], h[5], 11, GROWN, SECOND)
  {
    DigitsGenerated(8);
    MoreStorable();
    Stores(h, acts, 3, 7, Digits(8), INSERT_2, INSERTED);
    DigitsGenerated(9);
    InsertMoreApplies();
    Updates(h, acts, 4, 8, Digits(8), SECOND, INSERT_2, INSERTED, GROWN);
  }

  lemma RaceTo6(h: seq<World>, acts: seq<Action>)
    requires IsRun(h, acts) && Races(acts)
    requires At(h[5], 11, GROWN, map[]) && Checkpointed(h[4], h[5], 11, GROWN, SECOND)
    ensures At(h[6], 11, GROWN, map[])
  {
    DigitsGenerated(9);
    Takes(h, acts, 5, 11, SECOND, GROWN);
  }

  lemma RaceTo7(h: seq<World>, acts: seq<Action>)
    requires IsRun(h, acts) && Does(acts, 6, CompactionAction(COMPACTION_1)) && At(h[6], 11, GROWN, map[])
    ensures At(h[7], 11, GROWN, ANNOUNCED_1)
  {
    DigitsGenerated(5);
    Records(h, acts, 6, 11, COMPACTION_1, GROWN, map[]);
  }

  lemma RaceTo8(h: seq<World>, acts: seq<Action>)
    requires IsRun(h, acts) && Does(acts, 7, CompactionAction(WIDE)) && At(h[7], 11, GROWN, ANNOUNCED_1)
    ensures At(h[8], 11, GROWN, BOTH)
  {
    DigitsGenerated(9);
    BothAnnounced();
    Records(h, acts, 7, 11, WIDE, GROWN, ANNOUNCED_1);
  }

  /** The run before the landings. */
  ghost predicate Raced(h: seq<World>, acts: seq<Action>) {
    && IsRun(h, acts) && Races(acts) && At(h[8], 11, GROWN, BOTH)
    && At(h[1], 4, EMPTY, map[]) && Checkpointed(h[1], h[2], 7, INSERTED, FIRST)
    && At(h[4], 8, INSERTED, map[]) && Checkpointed(h[4], h[5], 11, GROWN, SECOND)
  }

  lemma RaceToAnnounced(h: seq<World>, acts: seq<Action>)
    requires IsRun(h, acts) && Races(acts) && At(h[3], 7, INSERTED, map[]) && Idle(h[3])
    ensures At(h[4], 8, INSERTED, map[]) && Checkpointed(h[4], h[5], 11, GROWN, SECOND) && At(h[8], 11, GROWN, BOTH)
  {
    RaceTo5(h, acts);
    RaceTo6(h, acts);
    RaceTo7(h, acts);
    RaceTo8(h, acts);
  }

  lemma RacedRun() returns (h: seq<World>, acts: seq<Action>)
    ensures Raced(h, acts)
  {
    acts := RaceExists();
    h := StartedRun(acts);
    RunsToTaken(h, acts);
    RaceToAnnounced(h, acts);
  }

  // -------------------------------------------------------------- the landings

  lemma FullReplaces(h: seq<World>, acts: seq<Action>)
    requires IsRun(h, acts) && |h| == 11 && At(h[8], 11, GROWN, BOTH)
    requires Checkpointed(h[1], h[2], 7, INSERTED, FIRST) && Checkpointed(h[4], h[5], 11, GROWN, SECOND)
    ensures Replaces(h[8], FULL)
  {
    BothAnnounced();
    CheckpointReplaces(h, acts, 2, 8, COMPACTION_1, INSERTED, FULL, 0);
    CheckpointReplaces(h, acts, 5, 8, WIDE, GROWN, FULL, 1);
    assert forall k :: k in FULL.compactions ==> k == SECOND || k == FIRST;
  }

  lemma StaleReplaces(h: seq<World>, acts: seq<Action>)
    requires IsRun(h, acts) && |h| == 11 && At(h[9], 36, LANDED_FULL, BOTH)
    requires Checkpointed(h[1], h[2], 7, INSERTED, FIRST)
    ensures Replaces(h[9], ICEBERG_1)
  {
    BothAnnounced();
    AnnouncedFirst();
    CheckpointReplaces(h, acts, 2, 9, COMPACTION_1, INSERTED, ICEBERG_1, 0);
  }

  lemma FullNew(w: World)
    requires w.table == "t" && w.compactions == BOTH
    ensures NewIds(w, 11, Digits(12), FULL_IDS) && LandedLength(w, Digits(12), FULL_IDS) == 36
  {
    DigitsGenerated(12);
    DigitsGenerated(15);
    DigitsGenerated(28);
    DigitsGenerated(5);
    DigitsGenerated(9);
    BothAnnounced();
    NameLength("t", Digits(12));
    var n, first, more := |NameOf("t", Digits(12))|, Replacement(SECOND, Digits(15), Digits(15)),
                          Replacement(FIRST, Digits(28), Digits(28));
    GrowsMore("t", BOTH, n, [], SECOND, Digits(15));
    assert [] + [first] == [first];
    GrowsMore("t", BOTH, n, [first], FIRST, Digits(28));
    assert [first] + [more] == FULL_IDS;
  }

  lemma FullReplacesAll()
    ensures ReplacesAll(FULL, FULL_IDS)
  {
    BothAnnounced();
    assert FULL_IDS[0] in FULL_IDS && FULL_IDS[1] in FULL_IDS;
    assert SECOND in FULL.compactions && FIRST in FULL.compactions;
  }

  lemma FullHappens(h: seq<World>, acts: seq<Action>)
    requires IsRun(h, acts) && Does(acts, 8, LandsFull()) && At(h[8], 11, GROWN, BOTH) && Replaces(h[8], FULL)
    ensures Landed(h[8], h[9], 36, LANDED_FULL)
  {
    FullNew(h[8]);
    FullReplacesAll();
    FullApplies();
    IcebergHappens(h, acts, 8, 11, FULL, FULL_IDS, Digits(12), LANDED_FULL);
  }

  lemma StaleHappens(h: seq<World>, acts: seq<Action>)
    requires IsRun(h, acts) && Does(acts, 9, LandsStale()) && At(h[9], 36, LANDED_FULL, BOTH)
    requires Replaces(h[9], ICEBERG_1)
    ensures Current(h[10]) == LANDED_STALE && h[10] != h[9]
  {
    DigitsGenerated(5);
    DigitsGenerated(37);
    DigitsGenerated(40);
    BothAnnounced();
    OneNew(h[9], 36, Digits(37), FIRST, Digits(40));
    OneReplaces(ICEBERG_1, FIRST, Digits(40));
    StaleApplies();
    IcebergHappens(h, acts, 9, 36, ICEBERG_1, STALE_IDS, Digits(37), LANDED_STALE);
  }

  lemma FullAt(w: World, v: World)
    requires At(w, 11, GROWN, BOTH) && Landed(w, v, 36, LANDED_FULL)
    ensures At(v, 36, LANDED_FULL, BOTH) && v != w
  {
  }

  lemma RaceLands(h: seq<World>, acts: seq<Action>)
    requires Raced(h, acts)
    ensures At(h[9], 36, LANDED_FULL, BOTH) && h[9] != h[8]
    ensures Current(h[10]) == LANDED_STALE && h[10] != h[9]
  {
    FullReplaces(h, acts);
    FullHappens(h, acts);
    FullAt(h[8], h[9]);
    StaleReplaces(h, acts);
    StaleHappens(h, acts);
  }

  // ------------------------------------------------------------------ the rows

  /** "s1" and "s2" hold one row each; the first compaction has written its copy of "s1". */
  const BEFORE := Files(map["s1" := [K], "s2" := [L], "p1" := [K]], map[])

  /** The second compaction has written its copies of both. */
  const AFTER := Files(BEFORE.rows["p2" := [K, L]], map[])

  const JOB_WIDE := Job(ItemFromCheckpoint(GROWN), WIDE, FULL, PARQUET_2, "g2", {})

  lemma BothRows(f: Files, a: FileDesc, b: FileDesc)
    ensures AllRows(f, [a, b]) == RowsIn(f, a.path) + RowsIn(f, b.path)
  {
    assert [a, b] == [a] + [b];
    AllRowsConcat(f, [a], [b]);
    AllRowsOne(f, a);
    AllRowsOne(f, b);
  }

  lemma WideWrites()
    ensures Writes(JOB_WIDE, BEFORE, AFTER, GROWN) && Brings(JOB_WIDE)
  {
    BothAnnounced();
    TwoPaths();
    BothRows(BEFORE, DATA, DATA_2);
    assert forall d :: d in [DATA, DATA_2] ==> d.path == "s1" || d.path == "s2";
    assert multiset([K]) + multiset([L]) == multiset([K, L]);
    OthersSame(BEFORE, AFTER, "p2", [K, L]);
  }

  lemma FirstCopied(r: Row)
    ensures RowsIn(BEFORE, "p1")[r] == Copies(JOB_1, BEFORE, r)
  {
    AllRowsOne(BEFORE, DATA);
  }

  lemma SeenGrown()
    ensures Visible(BEFORE, GROWN, K) == 1 && Visible(BEFORE, GROWN, L) == 1
  {
    BothRows(BEFORE, DATA, DATA_2);
  }

  lemma SeenFull()
    ensures Visible(AFTER, LANDED_FULL, K) == 2 && Visible(AFTER, LANDED_FULL, L) == 1
  {
    BothRows(AFTER, PARQUET_1, PARQUET_2);
  }

  lemma SeenStale()
    ensures Visible(AFTER, LANDED_STALE, K) == 1 && Visible(AFTER, LANDED_STALE, L) == 0
  {
    AllRowsOne(AFTER, PARQUET_1);
  }

  // -------------------------------------------------------------- what happens

  lemma RaceItems(h: seq<World>, acts: seq<Action>)
    requires Raced(h, acts)
    ensures Made(h, 2, FIRST) && Made(h, 5, SECOND)
  {
    DigitsGenerated(5);
    DigitsGenerated(9);
    NewKey(h[1].compactionItems, 4, FIRST);
    NewKey(h[4].compactionItems, 8, SECOND);
  }

  lemma WideLands(h: seq<World>, acts: seq<Action>)
    requires Raced(h, acts) && h[9] != h[8]
    ensures LandsItem(h, acts, 8, SECOND, JOB_WIDE, BEFORE, AFTER)
  {
    RaceItems(h, acts);
    StoredItem(h, acts, 5, 8, SECOND);
    WideWrites();
  }

  /** Both items of the run land, the second one first; what the first one wrote is there before either does. */
  ghost predicate Crossed(h: seq<World>, acts: seq<Action>) {
    && IsRun(h, acts) && |acts| == 10 && Made(h, 2, FIRST) && Made(h, 5, SECOND)
    && LandsItem(h, acts, 8, SECOND, JOB_WIDE, BEFORE, AFTER)
    && Landing(h, acts, 9) && acts[9].iceberg == JOB_1.iceberg
    && FIRST in h[9].compactionItems && h[9].compactionItems[FIRST] == JOB_1.item
  }

  lemma CrossedRun() returns (h: seq<World>, acts: seq<Action>)
    ensures Crossed(h, acts) && Current(h[8]) == GROWN && Current(h[9]) == LANDED_FULL && Current(h[10]) == LANDED_STALE
  {
    h, acts := RacedRun();
    RaceItems(h, acts);
    RaceLands(h, acts);
    WideLands(h, acts);
    StoredItem(h, acts, 2, 9, FIRST);
  }

  /** The list that the first compactor loaded lacks the second one's file.  When it lands last, the row that only
      this file holds is gone; the row that both compactions copied had been there twice in between. */
  lemma StaleListLosesRow() returns (h: seq<World>, acts: seq<Action>)
    ensures Crossed(h, acts) && !Balanced(AFTER, Current(h[9]), acts[9].iceberg, h[9].compactions)
    ensures forall r :: RowsIn(BEFORE, "p1")[r] == Copies(JOB_1, BEFORE, r)
    ensures Visible(BEFORE, Current(h[8]), L) == Visible(AFTER, Current(h[9]), L) == 1
    ensures Visible(AFTER, Current(h[10]), L) == 0
    ensures Visible(BEFORE, Current(h[8]), K) == Visible(AFTER, Current(h[10]), K) == 1
    ensures Visible(AFTER, Current(h[9]), K) == 2
  {
    h, acts := CrossedRun();
    forall r
      ensures RowsIn(BEFORE, "p1")[r] == Copies(JOB_1, BEFORE, r)
    {
      FirstCopied(r);
    }
    SeenGrown();
    SeenFull();
    SeenStale();
    IcebergInRuns(h, acts, 9, AFTER);
  }
}
