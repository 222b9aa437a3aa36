/** What every write of the checkpoint protocol keeps: a single-world invariant, and a forward
    relation between an earlier and a later world. */
module ProtocolSafety {
  import opened Prelude
  import opened Schemas
  import opened FileSets
  import opened Checkpoints
  import opened Descriptors
  import opened Protocol

  // ---------------------------------------------------------------- forward

  /** Versions never go back, and a version is reused for nothing else. */
  predicate PointerForward(p: Latest, q: Latest) {
    p.version <= q.version && (p.version == q.version ==> p == q)
  }

  /** Done is final; otherwise versions only grow, and a version belongs to one claim. */
  predicate TrackerForward(t: Tracker, u: Tracker) {
    u.version == -1 || (t.version != -1 && t.version <= u.version && (t.version == u.version ==> t == u))
  }

  /** A lease is claimed again only when more than its length has passed. */
  predicate LeaseGap(t: Tracker, u: Tracker) {
    u.version != -1 && t.version < u.version ==> u.claimedAt > t.claimedAt + LEASE_LENGTH_MS
  }

  ghost predicate PointersForward(a: Pointers, b: Pointers) {
    forall k :: k in a ==>
      k in b && PointerForward(a[k], b[k]) && (k == Es && a[k] != b[k] ==> Less(a[k].entityId, b[k].entityId))
  }

  ghost predicate TrackersForward(a: Trackers, b: Trackers) {
    forall k :: k in a ==> k in b && TrackerForward(a[k], b[k]) && (k.kind == CleanupLease ==> LeaseGap(a[k], b[k]))
  }

  ghost predicate Grows<V>(a: map<string, V>, b: map<string, V>) {
    forall k :: k in a ==> k in b && b[k] == a[k]
  }

  ghost predicate EntitiesForward(w: World, v: World) {
    && Grows(w.checkpoints, v.checkpoints)
    && Grows(w.speedboats, v.speedboats)
    && Grows(w.icebergs, v.icebergs)
    && Grows(w.compactions, v.compactions)
    && Grows(w.workItems, v.workItems)
  }

  /** `v` is a possible later world of `w`. */
  ghost predicate Forward(w: World, v: World) {
    && v.table == w.table && w.now <= v.now
    && PointersForward(w.pointers, v.pointers)
    && TrackersForward(w.trackers, v.trackers)
    && EntitiesForward(w, v)
  }

  lemma ForwardReflexive(w: World)
    ensures Forward(w, w)
  {
  }

  lemma PointersTransitive(a: Pointers, b: Pointers, c: Pointers)
    requires PointersForward(a, b) && PointersForward(b, c)
    ensures PointersForward(a, c)
  {
    if Es in a && a[Es] != b[Es] && b[Es] != c[Es] {
      LessTransitive(a[Es].entityId, b[Es].entityId, c[Es].entityId);
    }
  }

  lemma TrackersTransitive(a: Trackers, b: Trackers, c: Trackers)
    requires TrackersForward(a, b) && TrackersForward(b, c)
    ensures TrackersForward(a, c)
  {
  }

  lemma ForwardTransitive(u: World, v: World, w: World)
    requires Forward(u, v) && Forward(v, w)
    ensures Forward(u, w)
  {
    PointersTransitive(u.pointers, v.pointers, w.pointers);
    TrackersTransitive(u.trackers, v.trackers, w.trackers);
  }

  // ------------------------------------------- forward steps of the two maps

  lemma BumpForward(ps: Pointers, k: PointerKey, id: string)
    requires k in ps && (k == Es ==> Less(ps[k].entityId, id))
    ensures PointersForward(ps, Bump(ps, k, ps[k], id))
  {
  }

  lemma CreateForward(ts: Trackers, kind: TrackerKind, name: string, at: int)
    requires TrackerKey(kind, name) !in ts
    ensures TrackersForward(ts, NewTracker(ts, kind, name, at))
  {
  }

  lemma WaitingForward(ts: Trackers, name: string, c: Checkpoint)
    requires WaitingFree(ts, name, c)
    ensures TrackersForward(ts, AddWaiting(ts, name, c))
  {
  }

  lemma DoneForward(ts: Trackers, k: TrackerKey)
    ensures TrackersForward(ts, MarkDone(ts, k))
  {
  }

  lemma AllDoneForward(ts: Trackers, kind: TrackerKind, names: seq<string>)
    ensures TrackersForward(ts, MarkAllDone(ts, kind, names))
  {
  }

  // -------------------------------------------------------------- invariant

  ghost predicate GoodCheckpoint(table: string, c: Checkpoint) {
    && WellFormedCheckpoint(c)
    && c.tableName == table
    && ColonFree(c.id) && (c.originalId.Some? ==> ColonFree(c.originalId.value))
  }

  ghost predicate CheckpointsGood(table: string, cs: map<string, Checkpoint>) {
    forall n :: n in cs ==> GoodCheckpoint(table, cs[n])
  }

  /** Checkpoints of the original chain replace nothing and carry no coverage. */
  predicate OnChain(c: Checkpoint) {
    c.originalId.None? && c.extensions == map[]
  }

  /** The standard pointer names a stored checkpoint of the original chain. */
  ghost predicate StandardGood(p: Latest, cs: map<string, Checkpoint>) {
    p.entityId in cs && OnChain(cs[p.entityId]) && p.entityId == CheckpointName(cs[p.entityId])
  }

  /** The "es" pointer names a stored checkpoint that is fully covered. */
  ghost predicate EsGood(p: Latest, cs: map<string, Checkpoint>) {
    p.entityId in cs && CoveredByCount(cs[p.entityId], "es") && p.entityId == CheckpointName(cs[p.entityId])
  }

  function ItemPaths(i: WorkItem): set<string> {
    PathSet(i.speedboatFiles) + PathSet(i.icebergFiles)
  }

  /** The data files that a list of table infos announces. */
  function DataPaths(ts: seq<TableInfo>): set<string> {
    if |ts| == 0 then {}
    else DataPaths(ts[..|ts| - 1]) +
         (if IsData(ts[|ts| - 1]) then set s | s in SegmentFiles(ts[|ts| - 1]) :: s.0 else {})
  }

  /** A file is in the pending "es" work item or in one that was handed out. */
  ghost predicate Scheduled(pending: string, items: map<string, WorkItem>, ts: Trackers, p: string) {
    || (pending in items && p in ItemPaths(items[pending]))
    || exists n :: TrackerKey(EsLease, n) in ts && n in items && p in ItemPaths(items[n])
  }

  ghost predicate AllScheduled(pending: string, items: map<string, WorkItem>, ts: Trackers, ps: set<string>) {
    forall p :: p in ps ==> Scheduled(pending, items, ts, p)
  }

  /** Every data file of every stored commit is scheduled for indexing. */
  ghost predicate NoLostWork(pending: string, items: map<string, WorkItem>, ts: Trackers,
                             sbs: map<string, SpeedboatCommit>, ics: map<string, IcebergCommit>)
  {
    && (forall id :: id in sbs ==> AllScheduled(pending, items, ts, DataPaths(sbs[id].typeFiles)))
    && (forall id :: id in ics ==> AllScheduled(pending, items, ts, PathSet(ics[id].metadata.files)))
  }

  ghost predicate EsWorkGood(pending: string, items: map<string, WorkItem>) {
    NO_WORK_ITEM !in items && (pending == NO_WORK_ITEM || pending in items)
  }

  /** Exactly the stored speedboat commits have a tracker. */
  ghost predicate Tracked(ts: Trackers, sbs: map<string, SpeedboatCommit>) {
    forall id :: TrackerKey(SpeedboatCheckpointed, id) in ts <==> id in sbs
  }

  ghost predicate Inv(w: World) {
    && Standard in w.pointers && Es in w.pointers && EsWork in w.pointers
    && ColonFree(w.table)
    && CheckpointsGood(w.table, w.checkpoints)
    && StandardGood(w.pointers[Standard], w.checkpoints)
    && EsGood(w.pointers[Es], w.checkpoints)
    && EsWorkGood(w.pointers[EsWork].entityId, w.workItems)
    && NoLostWork(w.pointers[EsWork].entityId, w.workItems, w.trackers, w.speedboats, w.icebergs)
    && Tracked(w.trackers, w.speedboats)
  }

  lemma GeneratedIdFacts(s: string)
    requires GeneratedId(s)
    ensures ColonFree(s) && s != NO_WORK_ITEM
  {
    assert NO_WORK_ITEM[0] == '-';
  }

  lemma InitInv(table: string, id: string, now: int)
    requires GeneratedId(id) && ColonFree(table)
    ensures Inv(Init(table, id, now))
  {
    GeneratedIdFacts(id);
    var c := NewCheckpoint(table, id);
    assert CurrentPaths(c) == {};
    assert CoverageOf(c, "es").Keys * CurrentPaths(c) == {};
  }

  // ---------------------------------------------------- storing a checkpoint

  lemma StoreCheckpoint(table: string, cs: map<string, Checkpoint>, name: string, c: Checkpoint, std: Latest,
                        es: Latest)
    requires CheckpointsGood(table, cs) && StandardGood(std, cs) && EsGood(es, cs)
    requires name !in cs && GoodCheckpoint(table, c)
    ensures CheckpointsGood(table, cs[name := c]) && Grows(cs, cs[name := c])
    ensures StandardGood(std, cs[name := c]) && EsGood(es, cs[name := c])
  {
  }

  // ------------------------------------------------------- work is not lost

  lemma PayloadPaths(t: TableInfo)
    requires Payload(t).Some?
    ensures PathSet(Payload(t).value) == set s | s in SegmentFiles(t) :: s.0
  {
    var s, fs := SegmentFiles(t), Payload(t).value;
    forall p
      ensures p in PathSet(fs) <==> exists x :: x in s && x.0 == p
    {
      if p in PathSet(fs) {
        var i :| 0 <= i < |fs| && fs[i].path == p;
        assert s[i] in s;
      }
      if x :| x in s && x.0 == p {
        var i :| 0 <= i < |s| && s[i] == x;
        assert fs[i] in fs;
      }
    }
  }

  /** Merging a speedboat commit into a work item adds exactly the data files it announces. */
  lemma {:induction false} MergeSpeedboatPaths(item: WorkItem, ts: seq<TableInfo>)
    requires MergeSpeedboat(item, ts).Some?
    ensures ItemPaths(MergeSpeedboat(item, ts).value) == ItemPaths(item) + DataPaths(ts)
  {
    if |ts| != 0 {
      var m := |ts| - 1;
      MergeSpeedboatPaths(item, ts[..m]);
      var w := MergeSpeedboat(item, ts[..m]).value;
      if IsData(ts[m]) {
        PayloadPaths(ts[m]);
        MergeFilesMeaning(w.speedboatFiles, Payload(ts[m]).value);
      }
    }
  }

  /** Replacing the pending item by one with more files loses no scheduled file. */
  lemma ReplacePending(pending: string, items: map<string, WorkItem>, ts: Trackers,
                       sbs: map<string, SpeedboatCommit>, ics: map<string, IcebergCommit>, id: string, item: WorkItem)
    requires EsWorkGood(pending, items) && NoLostWork(pending, items, ts, sbs, ics)
    requires id !in items && id != NO_WORK_ITEM
    requires pending in items ==> ItemPaths(items[pending]) <= ItemPaths(item)
    ensures EsWorkGood(id, items[id := item]) && NoLostWork(id, items[id := item], ts, sbs, ics)
    ensures AllScheduled(id, items[id := item], ts, ItemPaths(item))
  {
    var more := items[id := item];
    forall p | Scheduled(pending, items, ts, p)
      ensures Scheduled(id, more, ts, p)
    {
      if !(pending in items && p in ItemPaths(items[pending])) {
        var n :| TrackerKey(EsLease, n) in ts && n in items && p in ItemPaths(items[n]);
        assert n in more && more[n] == items[n];
      }
    }
  }

  /** Handing the pending item out loses no scheduled file. */
  lemma HandOut(pending: string, items: map<string, WorkItem>, ts: Trackers, us: Trackers,
                sbs: map<string, SpeedboatCommit>, ics: map<string, IcebergCommit>)
    requires NoLostWork(pending, items, ts, sbs, ics) && TrackersForward(ts, us) && TrackerKey(EsLease, pending) in us
    ensures NoLostWork(NO_WORK_ITEM, items, us, sbs, ics)
  {
    forall p | Scheduled(pending, items, ts, p)
      ensures Scheduled(NO_WORK_ITEM, items, us, p)
    {
      if !(pending in items && p in ItemPaths(items[pending])) {
        var n :| TrackerKey(EsLease, n) in ts && n in items && p in ItemPaths(items[n]);
        assert TrackerKey(EsLease, n) in us;
      }
    }
  }

  lemma KeepLeases(pending: string, items: map<string, WorkItem>, ts: Trackers, us: Trackers,
                   sbs: map<string, SpeedboatCommit>, ics: map<string, IcebergCommit>)
    requires NoLostWork(pending, items, ts, sbs, ics) && TrackersForward(ts, us)
    ensures NoLostWork(pending, items, us, sbs, ics)
  {
    forall p | Scheduled(pending, items, ts, p)
      ensures Scheduled(pending, items, us, p)
    {
      if !(pending in items && p in ItemPaths(items[pending])) {
        var n :| TrackerKey(EsLease, n) in ts && n in items && p in ItemPaths(items[n]);
        assert TrackerKey(EsLease, n) in us;
      }
    }
  }

  lemma AddSpeedboat(pending: string, items: map<string, WorkItem>, ts: Trackers,
                     sbs: map<string, SpeedboatCommit>, ics: map<string, IcebergCommit>, id: string, c: SpeedboatCommit)
    requires NoLostWork(pending, items, ts, sbs, ics) && AllScheduled(pending, items, ts, DataPaths(c.typeFiles))
    ensures NoLostWork(pending, items, ts, sbs[id := c], ics)
  {
  }

  lemma AddIceberg(pending: string, items: map<string, WorkItem>, ts: Trackers,
                   sbs: map<string, SpeedboatCommit>, ics: map<string, IcebergCommit>, id: string, c: IcebergCommit)
    requires NoLostWork(pending, items, ts, sbs, ics) && AllScheduled(pending, items, ts, PathSet(c.metadata.files))
    ensures NoLostWork(pending, items, ts, sbs, ics[id := c])
  {
  }

  // ------------------------------------------------------ speedboat commits

  lemma SpeedboatWriteForward(w: World, c: SpeedboatCommit, id: string, workId: string, merged: WorkItem)
    requires EsWork in w.pointers && id !in w.speedboats && TrackerKey(SpeedboatCheckpointed, id) !in w.trackers
    requires workId !in w.workItems
    ensures Forward(w, SpeedboatWrite(w, c, id, workId, merged, w.pointers[EsWork]))
  {
    BumpForward(w.pointers, EsWork, workId);
    CreateForward(w.trackers, SpeedboatCheckpointed, id, UNCLAIMED_TIME);
  }

  lemma SpeedboatWriteKeeps(w: World, c: SpeedboatCommit, id: string, workId: string, item: WorkItem, merged: WorkItem)
    requires Inv(w) && PendingItem(w, w.pointers[EsWork]) == Some(item)
             && MergeSpeedboat(item, c.typeFiles) == Some(merged)
    requires id !in w.speedboats && TrackerKey(SpeedboatCheckpointed, id) !in w.trackers
    requires GeneratedId(workId) && workId !in w.workItems
    ensures Inv(SpeedboatWrite(w, c, id, workId, merged, w.pointers[EsWork]))
  {
    var v := SpeedboatWrite(w, c, id, workId, merged, w.pointers[EsWork]);
    GeneratedIdFacts(workId);
    CreateForward(w.trackers, SpeedboatCheckpointed, id, UNCLAIMED_TIME);
    MergeSpeedboatPaths(item, c.typeFiles);
    ReplacePending(w.pointers[EsWork].entityId, w.workItems, w.trackers, w.speedboats, w.icebergs, workId, merged);
    AddSpeedboat(workId, v.workItems, w.trackers, w.speedboats, w.icebergs, id, c);
    KeepLeases(workId, v.workItems, w.trackers, v.trackers, v.speedboats, v.icebergs);
  }

  lemma SpeedboatKeeps(w: World, c: SpeedboatCommit, id: string, workId: string, read: Latest)
    requires Inv(w) && PointerForward(read, w.pointers[EsWork])
    ensures var v := CommitSpeedboat(w, c, id, workId, read); Inv(v) && Forward(w, v)
  {
    if CommitSpeedboat(w, c, id, workId, read) == w {
      ForwardReflexive(w);
    } else {
      assert read == w.pointers[EsWork];
      var item := PendingItem(w, read).value;
      SpeedboatWriteKeeps(w, c, id, workId, item, MergeSpeedboat(item, c.typeFiles).value);
      SpeedboatWriteForward(w, c, id, workId, MergeSpeedboat(item, c.typeFiles).value);
    }
  }

  // --------------------------------------------------------- Iceberg commits

  lemma ReplacementWriteForward(w: World, name: string, r: Replacement, k: CompactionCommit, next: Checkpoint)
    requires name !in w.checkpoints && WaitingFree(w.trackers, name, next)
    requires TrackerKey(CleanupLease, r.cleanupId) !in w.trackers
    ensures Forward(w, ReplacementWrite(w, name, r, k, next))
  {
    ReplacementTrackers(w.trackers, name, r, next);
  }

  lemma ReplacementTrackers(ts: Trackers, name: string, r: Replacement, next: Checkpoint)
    requires WaitingFree(ts, name, next) && TrackerKey(CleanupLease, r.cleanupId) !in ts
    ensures TrackersForward(ts,
                            NewTracker(MarkDone(AddWaiting(ts, name, next),
                                                TrackerKey(CompactionLease, r.compactionId)),
                                           CleanupLease, r.cleanupId, UNCLAIMED_TIME))
  {
    var t1 := AddWaiting(ts, name, next);
    var t2 := MarkDone(t1, TrackerKey(CompactionLease, r.compactionId));
    WaitingForward(ts, name, next);
    DoneForward(t1, TrackerKey(CompactionLease, r.compactionId));
    CreateForward(t2, CleanupLease, r.cleanupId, UNCLAIMED_TIME);
    TrackersTransitive(ts, t1, t2);
    TrackersTransitive(ts, t2, NewTracker(t2, CleanupLease, r.cleanupId, UNCLAIMED_TIME));
  }

  lemma ReplacementWriteKeeps(w: World, name: string, r: Replacement, k: CompactionCommit, next: Checkpoint)
    requires Inv(w) && GoodCheckpoint(w.table, next) && name !in w.checkpoints
    requires TrackersForward(w.trackers, ReplacementWrite(w, name, r, k, next).trackers)
    ensures Inv(ReplacementWrite(w, name, r, k, next))
  {
    var v := ReplacementWrite(w, name, r, k, next);
    StoreCheckpoint(w.table, w.checkpoints, name, next, w.pointers[Standard], w.pointers[Es]);
    KeepLeases(w.pointers[EsWork].entityId, w.workItems, w.trackers, v.trackers, w.speedboats, w.icebergs);
  }

  /** The trackers of speedboat commits are the same in both maps. */
  ghost predicate SameSpeedboatTrackers(ts: Trackers, us: Trackers) {
    forall k: TrackerKey :: k.kind == SpeedboatCheckpointed ==> (k in ts <==> k in us) && (k in ts ==> us[k] == ts[k])
  }

  /** The parts of a world that replacements leave alone. */
  ghost predicate SameCommits(w: World, v: World) {
    && v.pointers == w.pointers && v.speedboats == w.speedboats && v.icebergs == w.icebergs
    && v.compactions == w.compactions && v.table == w.table && v.compactionItems == w.compactionItems
    && SameSpeedboatTrackers(w.trackers, v.trackers)
  }

  lemma AddReplacementKeeps(start: World, w: World, c: IcebergCommit, r: Replacement, next: Checkpoint)
    requires Inv(w) && GoodCheckpoint(w.table, next) && AddReplacement(start, w, c, r, next).Some?
    ensures var v := AddReplacement(start, w, c, r, next).value; Inv(v) && Forward(w, v)
  {
    var k := start.compactions[r.compactionId];
    var name := FullName(Descriptor(w.table, r.checkpointId, Some(k.checkpointIdToReplace)));
    ReplacementWriteForward(w, name, r, k, next);
    ReplacementWriteKeeps(w, name, r, k, next);
  }

  lemma WaitingSame(ts: Trackers, name: string, c: Checkpoint)
    ensures SameSpeedboatTrackers(ts, AddWaiting(ts, name, c))
  {
  }

  lemma ReplacementWriteSame(w: World, name: string, r: Replacement, k: CompactionCommit, next: Checkpoint)
    ensures SameCommits(w, ReplacementWrite(w, name, r, k, next))
  {
    WaitingSame(w.trackers, name, next);
    var t1 := AddWaiting(w.trackers, name, next);
    var t2 := MarkDone(t1, TrackerKey(CompactionLease, r.compactionId));
    assert SameSpeedboatTrackers(t1, t2);
    assert SameSpeedboatTrackers(t2, NewTracker(t2, CleanupLease, r.cleanupId, UNCLAIMED_TIME));
  }

  lemma {:induction false} AddReplacementsSame(start: World, w: World, c: IcebergCommit, rs: seq<Replacement>,
                                               next: Checkpoint)
    requires AddReplacements(start, w, c, rs, next).Some?
    ensures SameCommits(w, AddReplacements(start, w, c, rs, next).value)
  {
    if |rs| != 0 {
      var m := |rs| - 1;
      AddReplacementsSame(start, w, c, rs[..m], next);
      var v := AddReplacements(start, w, c, rs[..m], next).value;
      var k := start.compactions[rs[m].compactionId];
      ReplacementWriteSame(v, FullName(Descriptor(v.table, rs[m].checkpointId, Some(k.checkpointIdToReplace))),
                           rs[m], k, next);
    }
  }

  lemma {:induction false} AddReplacementsKeep(start: World, w: World, c: IcebergCommit, rs: seq<Replacement>,
                                               next: Checkpoint)
    requires Inv(w) && GoodCheckpoint(w.table, next) && AddReplacements(start, w, c, rs, next).Some?
    ensures var v := AddReplacements(start, w, c, rs, next).value; Inv(v) && Forward(w, v)
  {
    if |rs| == 0 {
      ForwardReflexive(w);
    } else {
      var m := |rs| - 1;
      AddReplacementsKeep(start, w, c, rs[..m], next);
      var v := AddReplacements(start, w, c, rs[..m], next).value;
      AddReplacementKeeps(start, v, c, rs[m], next);
      ForwardTransitive(w, v, AddReplacement(start, v, c, rs[m], next).value);
    }
  }

  /** A clone of a checkpoint of the original chain stays on that chain. */
  lemma CloneGood(table: string, c: Checkpoint, newId: string, sbs: seq<SpeedboatCommit>, ics: seq<IcebergCommit>,
                  lookup: Compactions)
    requires GoodCheckpoint(table, c) && OnChain(c) && GeneratedId(newId)
    requires forall i :: 0 <= i < |ics| ==> UniquePaths(ics[i].metadata.files)
    requires CloneAndApply(c, newId, sbs, ics, [], lookup).Some?
    ensures var d := CloneAndApply(c, newId, sbs, ics, [], lookup).value.0;
            GoodCheckpoint(table, d) && OnChain(d) && d.id == newId
  {
    GeneratedIdFacts(newId);
    CloneAndApplyKeeps(c, newId, sbs, ics, [], lookup);
    var start := RetainCurrent(c.(id := newId));
    assert start.extensions == map[];
    SpeedboatsNoCoverage(start, sbs, lookup);
    IcebergsNoCoverage(ApplySpeedboats(start, sbs, lookup).value, ics, lookup);
  }

  lemma {:induction false} TableInfosNoCoverage(c: Checkpoint, ts: seq<TableInfo>)
    requires c.extensions == map[] && ApplyTableInfos(c, ts).Some?
    ensures ApplyTableInfos(c, ts).value.extensions == map[]
  {
    if |ts| != 0 { TableInfosNoCoverage(c, ts[..|ts| - 1]); }
  }

  lemma SpeedboatNoCoverage(c: Checkpoint, s: SpeedboatCommit, lookup: Compactions)
    requires c.extensions == map[] && ApplySpeedboat(c, s, lookup).Some?
    ensures ApplySpeedboat(c, s, lookup).value.extensions == map[]
  {
    TableInfosNoCoverage(c.(speedboat := Some(SpeedboatFiles(c)), deletes := Some(DeleteFiles(c))), s.typeFiles);
  }

  lemma {:induction false} SpeedboatsNoCoverage(c: Checkpoint, cs: seq<SpeedboatCommit>, lookup: Compactions)
    requires c.extensions == map[] && ApplySpeedboats(c, cs, lookup).Some?
    ensures ApplySpeedboats(c, cs, lookup).value.extensions == map[]
  {
    if |cs| != 0 {
      SpeedboatsNoCoverage(c, cs[..|cs| - 1], lookup);
      SpeedboatNoCoverage(ApplySpeedboats(c, cs[..|cs| - 1], lookup).value, cs[|cs| - 1], lookup);
    }
  }

  lemma {:induction false} IcebergsNoCoverage(c: Checkpoint, cs: seq<IcebergCommit>, lookup: Compactions)
    requires c.extensions == map[] && ApplyIcebergs(c, cs, lookup).Some?
    ensures ApplyIcebergs(c, cs, lookup).value.extensions == map[]
  {
    if |cs| != 0 { IcebergsNoCoverage(c, cs[..|cs| - 1], lookup); }
  }

  lemma IcebergWriteForward(w: World, c: IcebergCommit, id: string, workId: string, item: WorkItem, next: Checkpoint)
    requires Standard in w.pointers && EsWork in w.pointers
    requires id !in w.icebergs && workId !in w.workItems && CheckpointName(next) !in w.checkpoints
    requires WaitingFree(w.trackers, CheckpointName(next), next)
    ensures Forward(w, IcebergWrite(w, c, id, workId, item, next, w.pointers[Standard], w.pointers[EsWork]))
  {
    var v := IcebergWrite(w, c, id, workId, item, next, w.pointers[Standard], w.pointers[EsWork]);
    var p1 := Bump(w.pointers, Standard, w.pointers[Standard], CheckpointName(next));
    BumpForward(w.pointers, Standard, CheckpointName(next));
    BumpForward(p1, EsWork, workId);
    PointersTransitive(w.pointers, p1, v.pointers);
    WaitingForward(w.trackers, CheckpointName(next), next);
  }

  lemma IcebergWriteKeeps(w: World, c: IcebergCommit, id: string, workId: string, item: WorkItem, next: Checkpoint)
    requires Inv(w) && GoodCheckpoint(w.table, next) && OnChain(next)
    requires PendingItem(w, w.pointers[EsWork]) == Some(item) && GeneratedId(workId)
    requires workId !in w.workItems && CheckpointName(next) !in w.checkpoints
    requires WaitingFree(w.trackers, CheckpointName(next), next)
    ensures Inv(IcebergWrite(w, c, id, workId, item, next, w.pointers[Standard], w.pointers[EsWork]))
  {
    var name := CheckpointName(next);
    var v := IcebergWrite(w, c, id, workId, item, next, w.pointers[Standard], w.pointers[EsWork]);
    GeneratedIdFacts(workId);
    WaitingForward(w.trackers, name, next);
    MergeFilesMeaning(item.icebergFiles, c.metadata.files);
    ReplacePending(w.pointers[EsWork].entityId, w.workItems, w.trackers, w.speedboats, w.icebergs, workId,
                   MergeIceberg(item, c));
    AddIceberg(workId, v.workItems, w.trackers, w.speedboats, w.icebergs, id, c);
    KeepLeases(workId, v.workItems, w.trackers, v.trackers, v.speedboats, v.icebergs);
    StoreCheckpoint(w.table, w.checkpoints, name, next, w.pointers[Standard], w.pointers[Es]);
  }

  /** A successful `commit_iceberg` applies the commit to the current checkpoint. */
  lemma IcebergWrites(w: World, c: IcebergCommit, id: string, newId: string, workId: string, rs: seq<Replacement>,
                      readStandard: Latest, readWork: Latest) returns (next: Checkpoint)
    requires Inv(w) && PointerForward(readStandard, w.pointers[Standard])
             && PointerForward(readWork, w.pointers[EsWork])
    requires CommitIceberg(w, c, id, newId, workId, rs, readStandard, readWork) != w
    ensures var cur := w.checkpoints[w.pointers[Standard].entityId];
            CloneAndApply(cur, newId, [], [c], [], w.compactions).Some?
            && next == CloneAndApply(cur, newId, [], [c], [], w.compactions).value.0
    ensures GoodCheckpoint(w.table, next) && OnChain(next) && next.id == newId
    ensures PendingItem(w, w.pointers[EsWork]).Some? && id !in w.icebergs
    ensures var v := IcebergWrite(w, c, id, workId, PendingItem(w, w.pointers[EsWork]).value, next,
                                  w.pointers[Standard], w.pointers[EsWork]);
            Inv(v) && Forward(w, v)
            && AddReplacements(w, v, c, rs, next)
               == Some(CommitIceberg(w, c, id, newId, workId, rs, readStandard, readWork))
  {
    var cur := w.checkpoints[w.pointers[Standard].entityId];
    next := IcebergGuard(w, c, id, newId, workId, rs, readStandard, readWork);
    CloneGood(w.table, cur, newId, [], [c], w.compactions);
    IcebergWriteKeeps(w, c, id, workId, PendingItem(w, w.pointers[EsWork]).value, next);
    IcebergWriteForward(w, c, id, workId, PendingItem(w, w.pointers[EsWork]).value, next);
  }

  /** The conditions that held, and that both pointers are as they were read. */
  lemma IcebergGuard(w: World, c: IcebergCommit, id: string, newId: string, workId: string, rs: seq<Replacement>,
                     readStandard: Latest, readWork: Latest) returns (next: Checkpoint)
    requires Inv(w) && PointerForward(readStandard, w.pointers[Standard])
             && PointerForward(readWork, w.pointers[EsWork])
    requires CommitIceberg(w, c, id, newId, workId, rs, readStandard, readWork) != w
    ensures PendingItem(w, w.pointers[EsWork]).Some?
    ensures var applied :=
              CloneAndApply(w.checkpoints[w.pointers[Standard].entityId], newId, [], [c], [], w.compactions);
            applied.Some? && next == applied.value.0
    ensures GeneratedId(newId) && GeneratedId(workId) && UniquePaths(c.metadata.files)
    ensures id !in w.icebergs && workId !in w.workItems && CheckpointName(next) !in w.checkpoints
    ensures WaitingFree(w.trackers, CheckpointName(next), next)
    ensures AddReplacements(w, IcebergWrite(w, c, id, workId, PendingItem(w, w.pointers[EsWork]).value, next,
                                            w.pointers[Standard], w.pointers[EsWork]), c, rs, next)
            == Some(CommitIceberg(w, c, id, newId, workId, rs, readStandard, readWork))
  {
    assert readStandard == w.pointers[Standard] && readWork == w.pointers[EsWork];
    next := CloneAndApply(w.checkpoints[w.pointers[Standard].entityId], newId, [], [c], [], w.compactions).value.0;
  }

  lemma IcebergKeeps(w: World, c: IcebergCommit, id: string, newId: string, workId: string, rs: seq<Replacement>,
                     readStandard: Latest, readWork: Latest)
    requires Inv(w) && PointerForward(readStandard, w.pointers[Standard])
             && PointerForward(readWork, w.pointers[EsWork])
    ensures var v := CommitIceberg(w, c, id, newId, workId, rs, readStandard, readWork); Inv(v) && Forward(w, v)
  {
    var v := CommitIceberg(w, c, id, newId, workId, rs, readStandard, readWork);
    if v == w {
      ForwardReflexive(w);
    } else {
      var next := IcebergWrites(w, c, id, newId, workId, rs, readStandard, readWork);
      var u := IcebergWrite(w, c, id, workId, PendingItem(w, w.pointers[EsWork]).value, next,
                            w.pointers[Standard], w.pointers[EsWork]);
      AddReplacementsKeep(w, u, c, rs, next);
      ForwardTransitive(w, u, v);
    }
  }

  // ------------------------------------------------- standard checkpoints

  lemma StandardWriteKeeps(w: World, names: seq<string>, next: Checkpoint)
    requires Inv(w) && GoodCheckpoint(w.table, next) && OnChain(next)
    requires CheckpointName(next) !in w.checkpoints && WaitingFree(w.trackers, CheckpointName(next), next)
    ensures var v := StandardWrite(w, names, next, w.pointers[Standard]); Inv(v) && Forward(w, v)
  {
    var name := CheckpointName(next);
    var v := StandardWrite(w, names, next, w.pointers[Standard]);
    var t1 := MarkAllDone(w.trackers, SpeedboatCheckpointed, names);
    AllDoneForward(w.trackers, SpeedboatCheckpointed, names);
    WaitingForward(t1, name, next);
    TrackersTransitive(w.trackers, t1, v.trackers);
    BumpForward(w.pointers, Standard, name);
    StoreCheckpoint(w.table, w.checkpoints, name, next, w.pointers[Standard], w.pointers[Es]);
    KeepLeases(w.pointers[EsWork].entityId, w.workItems, w.trackers, v.trackers, w.speedboats, w.icebergs);
    assert Tracked(v.trackers, v.speedboats);
  }

  lemma CompactionItemKeeps(w: World, itemId: string, next: Checkpoint)
    requires Inv(w) && CompactionWork in w.pointers
    ensures var v := CompactionItemWrite(w, itemId, next, w.pointers[CompactionWork]); Inv(v) && Forward(w, v)
  {
    BumpForward(w.pointers, CompactionWork, itemId);
  }

  /** A successful `update_standard_checkpoint` applies the named commits to the current checkpoint. */
  lemma StandardWrites(w: World, names: seq<string>, read: Trackers, readStandard: Latest, newId: string,
                       compact: bool, readCompaction: Latest, itemId: string) returns (next: Checkpoint)
    requires Inv(w) && PointerForward(readStandard, w.pointers[Standard])
    requires UpdateStandard(w, names, read, readStandard, newId, compact, readCompaction, itemId) != w
    ensures forall i :: 0 <= i < |names| ==> names[i] in w.speedboats
    ensures var cur := w.checkpoints[w.pointers[Standard].entityId];
            CloneAndApply(cur, newId, CommitsNamed(w, names), [], [], w.compactions).Some?
            && next == CloneAndApply(cur, newId, CommitsNamed(w, names), [], [], w.compactions).value.0
    ensures GoodCheckpoint(w.table, next) && OnChain(next) && next.id == newId
    ensures NoDup(names) && Pending(read, SpeedboatCheckpointed, names)
    ensures SameVersions(read, w.trackers, SpeedboatCheckpointed, names)
    ensures var v := UpdateStandard(w, names, read, readStandard, newId, compact, readCompaction, itemId);
            var u := StandardWrite(w, names, next, w.pointers[Standard]);
            && Inv(u) && Forward(w, u)
            && (v == u
                || (Unchanged(w, CompactionWork, readCompaction)
                    && v == CompactionItemWrite(u, itemId, next, readCompaction)))
  {
    assert readStandard == w.pointers[Standard];
    var cur := w.checkpoints[w.pointers[Standard].entityId];
    next := CloneAndApply(cur, newId, CommitsNamed(w, names), [], [], w.compactions).value.0;
    CloneGood(w.table, cur, newId, CommitsNamed(w, names), [], w.compactions);
    StandardWriteKeeps(w, names, next);
  }

  lemma StandardKeeps(w: World, names: seq<string>, read: Trackers, readStandard: Latest, newId: string,
                      compact: bool, readCompaction: Latest, itemId: string)
    requires Inv(w) && PointerForward(readStandard, w.pointers[Standard])
    requires CompactionWork in w.pointers && PointerForward(readCompaction, w.pointers[CompactionWork])
    ensures var v := UpdateStandard(w, names, read, readStandard, newId, compact, readCompaction, itemId);
            Inv(v) && Forward(w, v)
  {
    var v := UpdateStandard(w, names, read, readStandard, newId, compact, readCompaction, itemId);
    if v == w {
      ForwardReflexive(w);
    } else {
      var next := StandardWrites(w, names, read, readStandard, newId, compact, readCompaction, itemId);
      var u := StandardWrite(w, names, next, w.pointers[Standard]);
      if v != u {
        assert readCompaction == u.pointers[CompactionWork];
        CompactionItemKeeps(u, itemId, next);
        ForwardTransitive(w, u, v);
      }
    }
  }

  // ------------------------------------------------------ "es" checkpoints

  lemma CoveredGood(w: World, c: Checkpoint, exts: seq<string>, newId: string)
    requires GoodCheckpoint(w.table, c) && GeneratedId(newId)
    requires forall i :: 0 <= i < |exts| ==> exts[i] in w.extensionCommits
    requires Covered(w, c, exts, newId).Some?
    ensures GoodCheckpoint(w.table, Covered(w, c, exts, newId).value)
  {
    GeneratedIdFacts(newId);
    CloneAndApplyKeeps(c, newId, [], [], ExtensionsNamed(w, exts), w.compactions);
    var d := CloneAndApply(c, newId, [], [], ExtensionsNamed(w, exts), w.compactions).value.0;
    assert CurrentPaths(Covered(w, c, exts, newId).value) == CurrentPaths(d);
  }

  lemma EsWriteKeeps(w: World, next: Checkpoint)
    requires Inv(w) && GoodCheckpoint(w.table, next) && CheckpointName(next) !in w.checkpoints
    requires CoveredByCount(next, "es") && Less(w.pointers[Es].entityId, CheckpointName(next))
    ensures var v := EsWrite(w, next, w.pointers[Es]); Inv(v) && Forward(w, v)
  {
    StoreCheckpoint(w.table, w.checkpoints, CheckpointName(next), next, w.pointers[Standard], w.pointers[Es]);
    BumpForward(w.pointers, Es, CheckpointName(next));
  }

  lemma EsKeeps(w: World, exts: seq<string>, readExts: Trackers, name: string, readWaiting: Trackers, newId: string,
                readEs: Latest)
    requires Inv(w) && PointerForward(readEs, w.pointers[Es])
    ensures var v := UpdateEs(w, exts, readExts, name, readWaiting, newId, readEs); Inv(v) && Forward(w, v)
  {
    if UpdateEs(w, exts, readExts, name, readWaiting, newId, readEs) == w {
      ForwardReflexive(w);
    } else {
      assert readEs == w.pointers[Es];
      CoveredGood(w, w.checkpoints[name], exts, newId);
      EsWriteKeeps(w, Covered(w, w.checkpoints[name], exts, newId).value);
    }
  }

  // -------------------------------------------------- pointers and trackers

  /** Writes that change only trackers and entities outside the invariant. */
  lemma TrackersKeep(w: World, v: World)
    requires Inv(w) && TrackersForward(w.trackers, v.trackers) && Tracked(v.trackers, w.speedboats)
    requires v == w.(trackers := v.trackers, extensionCommits := v.extensionCommits)
    ensures Inv(v) && Forward(w, v)
  {
    KeepLeases(w.pointers[EsWork].entityId, w.workItems, w.trackers, v.trackers, w.speedboats, w.icebergs);
  }

  lemma TakeKeeps(w: World, read: Latest)
    requires Inv(w) && PointerForward(read, w.pointers[EsWork])
    ensures var v := TakeExtensionItem(w, read); Inv(v) && Forward(w, v)
  {
    var v := TakeExtensionItem(w, read);
    if v == w {
      ForwardReflexive(w);
    } else {
      assert read == w.pointers[EsWork];
      CreateForward(w.trackers, EsLease, read.entityId, w.now);
      BumpForward(w.pointers, EsWork, NO_WORK_ITEM);
      HandOut(read.entityId, w.workItems, w.trackers, v.trackers, w.speedboats, w.icebergs);
    }
  }

  lemma CompleteKeeps(w: World, e: ExtensionCommit)
    requires Inv(w)
    ensures var v := CompleteExtensionItem(w, e); Inv(v) && Forward(w, v)
  {
    var v := CompleteExtensionItem(w, e);
    if v == w {
      ForwardReflexive(w);
    } else {
      CompletedForward(w.trackers, e.id, w.speedboats);
      TrackersKeep(w, v);
    }
  }

  lemma CompletedForward(ts: Trackers, id: string, sbs: map<string, SpeedboatCommit>)
    requires TrackerKey(ExtensionCheckpointed, id) !in ts && Tracked(ts, sbs)
    ensures TrackersForward(ts, CompletedTrackers(ts, id)) && Tracked(CompletedTrackers(ts, id), sbs)
  {
    var t1 := MarkDone(ts, TrackerKey(EsLease, id));
    DoneForward(ts, TrackerKey(EsLease, id));
    CreateForward(t1, ExtensionCheckpointed, id, UNCLAIMED_TIME);
    TrackersTransitive(ts, t1, CompletedTrackers(ts, id));
  }

  lemma WaitingDoneKeeps(w: World, name: string, read: Trackers)
    requires Inv(w)
    ensures var v := MarkWaitingDone(w, name, read); Inv(v) && Forward(w, v)
  {
    AllDoneForward(w.trackers, WaitingForExtension, [name]);
    var v := MarkWaitingDone(w, name, read);
    if v == w { ForwardReflexive(w); } else { TrackersKeep(w, v); }
  }

  lemma TakeCompactionKeeps(w: World, read: Latest)
    requires Inv(w) && CompactionWork in w.pointers && PointerForward(read, w.pointers[CompactionWork])
    ensures var v := TakeCompactionItem(w, read); Inv(v) && Forward(w, v)
  {
    var v := TakeCompactionItem(w, read);
    if v == w {
      ForwardReflexive(w);
    } else {
      var u := w.(trackers := v.trackers);
      CreateForward(w.trackers, CompactionLease, read.entityId, w.now);
      TrackersKeep(w, u);
      BumpForward(w.pointers, CompactionWork, NO_WORK_ITEM);
    }
  }

  lemma ClaimForward(ts: Trackers, names: seq<string>, read: Trackers, readTime: int, stamp: int)
    requires TrackersForward(read, ts) && readTime <= stamp
    requires Claimable(read, names, readTime) && SameVersions(read, ts, CleanupLease, names)
    ensures TrackersForward(ts, ClaimAll(ts, names, stamp))
  {
    var us := ClaimAll(ts, names, stamp);
    forall k | k in ts
      ensures k in us && TrackerForward(ts[k], us[k])
      ensures k.kind == CleanupLease ==> LeaseGap(ts[k], us[k])
    {
      if k.kind == CleanupLease && k.name in names {
        var i :| 0 <= i < |names| && names[i] == k.name;
        assert k == TrackerKey(CleanupLease, names[i]);
        assert read[k] == ts[k];
      }
    }
  }

  lemma ClaimTracked(ts: Trackers, names: seq<string>, stamp: int, sbs: map<string, SpeedboatCommit>)
    requires Tracked(ts, sbs)
    ensures Tracked(ClaimAll(ts, names, stamp), sbs)
  {
  }

  /** Claims of a lease are more than its length apart. */
  lemma ClaimKeeps(w: World, names: seq<string>, read: Trackers, readTime: int, stamp: int)
    requires Inv(w) && TrackersForward(read, w.trackers) && readTime <= stamp
    ensures var v := ClaimCleanupItems(w, names, read, readTime, stamp); Inv(v) && Forward(w, v)
  {
    var v := ClaimCleanupItems(w, names, read, readTime, stamp);
    if v == w {
      ForwardReflexive(w);
    } else {
      ClaimForward(w.trackers, names, read, readTime, stamp);
      ClaimTracked(w.trackers, names, stamp, w.speedboats);
      TrackersKeep(w, w.(trackers := ClaimAll(w.trackers, names, stamp)));
    }
  }

  lemma FinishKeeps(w: World, name: string)
    requires Inv(w)
    ensures var v := FinishCleanup(w, name); Inv(v) && Forward(w, v)
  {
    DoneForward(w.trackers, TrackerKey(CleanupLease, name));
    TrackersKeep(w, FinishCleanup(w, name));
  }

  /** The invariant reads only these parts of a world. */
  lemma InvDepends(w: World, v: World)
    requires Inv(w)
    requires v.table == w.table && v.checkpoints == w.checkpoints && v.workItems == w.workItems
    requires v.speedboats == w.speedboats && v.icebergs == w.icebergs && v.trackers == w.trackers
    requires forall k :: k == Standard || k == Es || k == EsWork ==> k in v.pointers && v.pointers[k] == w.pointers[k]
    ensures Inv(v)
  {
  }

  lemma PointerWriteForward(w: World, k: PointerKey, p: Latest)
    requires k != Es && (k in w.pointers ==> w.pointers[k].version < p.version)
    ensures Forward(w, w.(pointers := w.pointers[k := p]))
  {
    var v := w.(pointers := w.pointers[k := p]);
    assert PointersForward(w.pointers, v.pointers);
  }

  lemma CreateOrBumpShape(w: World, k: PointerKey, read: Option<Latest>, id: string) returns (p: Latest)
    requires read.Some? ==> k in w.pointers && PointerForward(read.value, w.pointers[k])
    requires CreateOrBump(w, k, read, id) != w
    ensures CreateOrBump(w, k, read, id) == w.(pointers := w.pointers[k := p])
    ensures k in w.pointers ==> w.pointers[k].version < p.version
  {
    p := if read.None? then Latest(0, id) else Latest(read.value.version + 1, id);
  }

  lemma PointerWriteKeeps(w: World, k: PointerKey, p: Latest)
    requires Inv(w) && k != Standard && k != Es && k != EsWork
    ensures Inv(w.(pointers := w.pointers[k := p]))
  {
    InvDepends(w, w.(pointers := w.pointers[k := p]));
  }

  /** Writes to a pointer that nothing else depends on. */
  lemma CreateOrBumpKeeps(w: World, k: PointerKey, read: Option<Latest>, id: string)
    requires Inv(w) && k != Standard && k != Es && k != EsWork
    requires read.Some? ==> k in w.pointers && PointerForward(read.value, w.pointers[k])
    ensures Inv(CreateOrBump(w, k, read, id))
    ensures Forward(w, CreateOrBump(w, k, read, id))
  {
    if CreateOrBump(w, k, read, id) == w {
      ForwardReflexive(w);
    } else {
      var p := CreateOrBumpShape(w, k, read, id);
      PointerWriteForward(w, k, p);
      PointerWriteKeeps(w, k, p);
    }
  }

  lemma RecordKeeps(w: World, k: CompactionCommit)
    requires Inv(w)
    ensures var v := RecordCompaction(w, k); Inv(v) && Forward(w, v)
  {
    ForwardReflexive(w);
    if RecordCompaction(w, k) != w {
      InvDepends(w, w.(compactions := w.compactions[k.compactionId := k]));
    }
  }
}
