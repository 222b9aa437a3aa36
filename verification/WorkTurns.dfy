/** The two slots for pending work: what fills and empties them, exactly when a commit lands, and what it leaves. */
module WorkTurns {
  import opened Prelude
  import opened FileSets
  import opened Checkpoints
  import opened CheckpointContents
  import opened Descriptors
  import opened Protocol
  import opened ProtocolSafety
  import opened ProtocolRuns

  // ---------------------------------------------------------------- the compaction slot

  function Slot(w: World): Option<Latest> { Describe(w, CompactionWork) }

  /** The slot stays, or a new item fills the empty slot, or the item leaves it under a lease of now. */
  ghost predicate Turn(w: World, v: World) {
    && Slot(w).Some? && Slot(v).Some?
    && var p, q := Slot(w).value, Slot(v).value;
       || q == p
       || (q.version == p.version + 1
           && if p.entityId == NO_WORK_ITEM then q.entityId in v.compactionItems && q.entityId !in w.compactionItems
              else q.entityId == NO_WORK_ITEM && Leased(w, v, p.entityId))
  }

  /** The item was never out before, and is out now. */
  predicate Leased(w: World, v: World, id: string) {
    var k := TrackerKey(CompactionLease, id);
    k !in w.trackers && k in v.trackers && v.trackers[k] == Tracker(0, w.now)
  }

  lemma SlotStays(w: World, v: World)
    requires CompactionWork in w.pointers && Slot(v) == Slot(w)
    ensures Turn(w, v)
  {
  }

  lemma StandardTurn(w: World, names: seq<string>, read: Trackers, p: Latest, newId: string, compact: bool, q: Latest,
                     itemId: string)
    requires CompactionWork in w.pointers && PointerForward(q, w.pointers[CompactionWork])
    ensures Turn(w, UpdateStandard(w, names, read, p, newId, compact, q, itemId))
  {
  }

  lemma TakeTurn(w: World, q: Latest)
    requires CompactionWork in w.pointers && PointerForward(q, w.pointers[CompactionWork])
    ensures Turn(w, TakeCompactionItem(w, q))
  {
  }

  lemma SpeedboatSlot(w: World, c: SpeedboatCommit, id: string, workId: string, p: Latest)
    ensures Slot(CommitSpeedboat(w, c, id, workId, p)) == Slot(w)
  {
  }

  lemma IcebergSlot(w: World, c: IcebergCommit, id: string, newId: string, workId: string, rs: seq<Replacement>,
                    p: Latest, q: Latest)
    requires Inv(w) && PointerForward(p, w.pointers[Standard]) && PointerForward(q, w.pointers[EsWork])
    ensures Slot(CommitIceberg(w, c, id, newId, workId, rs, p, q)) == Slot(w)
  {
    if CommitIceberg(w, c, id, newId, workId, rs, p, q) != w {
      var next := IcebergGuard(w, c, id, newId, workId, rs, p, q);
      AddReplacementsSame(w, IcebergWrite(w, c, id, workId, PendingItem(w, w.pointers[EsWork]).value, next,
                                          w.pointers[Standard], w.pointers[EsWork]), c, rs, next);
    }
  }

  lemma WriteSlot(w: World, k: PointerKey, read: Option<Latest>, id: string)
    requires k != CompactionWork
    ensures Slot(CreateOrBump(w, k, read, id)) == Slot(w)
  {
  }

  lemma PublicationSlot(h: seq<World>, a: Action)
    requires |h| > 0 && (a.Publish? || a.QueueRequest? || a.ClearRequest?)
    ensures Slot(Next(h, a)) == Slot(h[|h| - 1])
  {
    var w := h[|h| - 1];
    match a {
      case Publish(forEs, i, j) =>
        PublishIs(h, forEs, i, j);
        if Publishes(h, forEs, i, j) {
          WriteSlot(w, ActiveKey(forEs), Describe(h[j], ActiveKey(forEs)),
                    Republish(w.table, ReadAt(h, i, CommittedKey(forEs)).value.entityId).value);
        }
      case QueueRequest(i) =>
        QueueIs(h, i);
        if i < |h| { WriteSlot(w, Request, Describe(h[i], Request), "checkpoint_publication_request#" + w.table); }
      case ClearRequest(i) =>
        ClearIs(h, i);
        if ReadAt(h, i, Request).Some? { WriteSlot(w, Request, Describe(h[i], Request), NO_WORK_ITEM); }
    }
  }

  lemma EsSlot(w: World, exts: seq<string>, readExts: Trackers, name: string, readWaiting: Trackers, newId: string,
               p: Latest)
    ensures Slot(UpdateEs(w, exts, readExts, name, readWaiting, newId, p)) == Slot(w)
  {
  }

  lemma CommitSlot(h: seq<World>, a: Action)
    requires History(h) && (a.SpeedboatAction? || a.IcebergAction? || a.EsAction?)
    ensures Slot(Next(h, a)) == Slot(h[|h| - 1])
  {
    Now(h);
    var w := h[|h| - 1];
    match a {
      case SpeedboatAction(c, id, workId, i) =>
        SpeedboatIs(h, c, id, workId, i);
        if ReadAt(h, i, EsWork).Some? { SpeedboatSlot(w, c, id, workId, ReadAt(h, i, EsWork).value); }
      case IcebergAction(c, id, newId, workId, rs, i, j) =>
        IcebergIs(h, c, id, newId, workId, rs, i, j);
        if ReadAt(h, i, Standard).Some? && ReadAt(h, j, EsWork).Some? {
          ReadForward(h, i, Standard);
          ReadForward(h, j, EsWork);
          IcebergSlot(w, c, id, newId, workId, rs, ReadAt(h, i, Standard).value, ReadAt(h, j, EsWork).value);
        }
      case EsAction(exts, i, name, j, newId, k) =>
        EsIs(h, exts, i, name, j, newId, k);
        if i < |h| && j < |h| && ReadAt(h, k, Es).Some? {
          EsSlot(w, exts, h[i].trackers, name, h[j].trackers, newId, ReadAt(h, k, Es).value);
        }
    }
  }

  lemma OtherSlot(h: seq<World>, a: Action)
    requires |h| > 0
    requires a.Tick? || a.CompactionAction? || a.TakeExtension? || a.CompleteExtension? || a.WaitingDone?
             || a.ClaimCleanup? || a.CleanupDone?
    ensures Slot(Next(h, a)) == Slot(h[|h| - 1])
  {
    match a {
      case Tick(now) => TickIs(h, now);
      case CompactionAction(k) =>
      case TakeExtension(i) => TakeIs(h, i);
      case CompleteExtension(e) =>
      case WaitingDone(name, i) => WaitingIs(h, name, i);
      case ClaimCleanup(names, i, j) => ClaimIs(h, names, i, j);
      case CleanupDone(name) =>
    }
  }

  lemma StepTurns(h: seq<World>, a: Action)
    requires History(h)
    ensures Turn(h[|h| - 1], Next(h, a))
  {
    Now(h);
    var w := h[|h| - 1];
    if a.StandardAction? {
      StandardIs(h, a.names, a.trackersAt, a.standardAt, a.newId, a.compact, a.compactionAt, a.itemId);
      if a.trackersAt < |h| && ReadAt(h, a.standardAt, Standard).Some?
         && ReadAt(h, a.compactionAt, CompactionWork).Some? {
        ReadForward(h, a.compactionAt, CompactionWork);
        StandardTurn(w, a.names, h[a.trackersAt].trackers, ReadAt(h, a.standardAt, Standard).value, a.newId, a.compact,
                     ReadAt(h, a.compactionAt, CompactionWork).value, a.itemId);
      }
    } else if a.TakeCompaction? {
      TakeCompactionIs(h, a.compactionAt);
      if ReadAt(h, a.compactionAt, CompactionWork).Some? {
        ReadForward(h, a.compactionAt, CompactionWork);
        TakeTurn(w, ReadAt(h, a.compactionAt, CompactionWork).value);
      }
    } else {
      if a.SpeedboatAction? || a.IcebergAction? || a.EsAction? {
        CommitSlot(h, a);
      } else if a.Publish? || a.QueueRequest? || a.ClearRequest? {
        PublicationSlot(h, a);
      } else {
        OtherSlot(h, a);
      }
      SlotStays(w, Next(h, a));
    }
  }

  /** In every run the compaction slot holds one item at a time: a new one is made only when it is empty, and it is
      emptied only by handing the item out, for the first time. */
  lemma OneItemAtATime(h: seq<World>, acts: seq<Action>, n: nat)
    requires IsRun(h, acts) && n < |acts|
    ensures Turn(h[n], h[n + 1])
  {
    RunTake(h, acts, n);
    RunsAreSafe(h[..n + 1], acts[..n]);
    StepOf(h, acts, n);
    StepTurns(h[..n + 1], acts[n]);
  }

  /** A worker that reads the slot and takes the item gets it, exactly when the item was never out. */
  lemma CompactionIsTaken(h: seq<World>, acts: seq<Action>, n: nat)
    requires IsRun(h, acts) && n < |acts| && acts[n] == TakeCompaction(n)
    requires CompactionWork in h[n].pointers && h[n].pointers[CompactionWork].entityId != NO_WORK_ITEM
    ensures var p := h[n].pointers[CompactionWork];
            if TrackerKey(CompactionLease, p.entityId) in h[n].trackers then h[n + 1] == h[n]
            else Slot(h[n + 1]) == Some(Latest(p.version + 1, NO_WORK_ITEM)) && Leased(h[n], h[n + 1], p.entityId)
  {
    StepOf(h, acts, n);
    TakeCompactionIs(h[..n + 1], n);
  }

  // -------------------------------------------------------------- speedboat commits

  /** The files that wait to be indexed. */
  function WaitingFiles(w: World): WorkItem
    requires EsWork in w.pointers
  {
    var n := w.pointers[EsWork].entityId;
    if n in w.workItems then w.workItems[n] else WorkItem([], [])
  }

  predicate SchemasGiven(ts: seq<TableInfo>) { forall i :: 0 <= i < |ts| && IsInsert(ts[i]) ==> ts[i].schema.Some? }

  lemma {:induction false} MergedItem(item: WorkItem, ts: seq<TableInfo>)
    ensures MergeSpeedboat(item, ts).Some? <==> SchemasGiven(ts)
    ensures SchemasGiven(ts) ==>
              MergeSpeedboat(item, ts).value
              == item.(speedboatFiles := MergeFiles(item.speedboatFiles, DataFiles(ts)))
  {
    if |ts| != 0 {
      var m := |ts| - 1;
      var t := ts[m];
      MergedItem(item, ts[..m]);
      assert SchemasGiven(ts) <==> SchemasGiven(ts[..m]) && (IsInsert(t) ==> t.schema.Some?) by {
        assert forall i :: 0 <= i < m ==> ts[i] == ts[..m][i];
      }
      if IsInsert(t) { PayloadFiles(t); }
      MergeFilesConcat(item.speedboatFiles, DataFiles(ts[..m]), InfoFiles(t));
    }
  }

  /** The commit brings something, its data has schemas, and its ids are new. */
  predicate Acceptable(w: World, c: SpeedboatCommit, id: string, workId: string) {
    && |c.typeFiles| > 0 && SchemasGiven(c.typeFiles)
    && GeneratedId(id) && GeneratedId(workId) && id !in w.speedboats && workId !in w.workItems
  }

  /** The commit is stored and waits to be applied, and its data files wait to be indexed after those that did. */
  ghost predicate Landed(w: World, v: World, c: SpeedboatCommit, id: string, workId: string) {
    && id in v.speedboats && v.speedboats[id] == c
    && TrackerKey(SpeedboatCheckpointed, id) in v.trackers
    && v.trackers[TrackerKey(SpeedboatCheckpointed, id)] == Tracker(0, UNCLAIMED_TIME)
    && EsWork in w.pointers && EsWork in v.pointers
    && v.pointers[EsWork] == Latest(w.pointers[EsWork].version + 1, workId)
    && WaitingFiles(v).icebergFiles == WaitingFiles(w).icebergFiles
    && WaitingFiles(v).speedboatFiles == MergeFiles(WaitingFiles(w).speedboatFiles, DataFiles(c.typeFiles))
  }

  lemma WaitingIsPending(w: World)
    requires Inv(w)
    ensures PendingItem(w, w.pointers[EsWork]) == Some(WaitingFiles(w))
  {
  }

  lemma AcceptedIsWritten(w: World, c: SpeedboatCommit, id: string, workId: string, item: WorkItem)
    requires Inv(w) && PendingItem(w, w.pointers[EsWork]) == Some(item)
    requires MergeSpeedboat(item, c.typeFiles).Some? <==> SchemasGiven(c.typeFiles)
    ensures CommitSpeedboat(w, c, id, workId, w.pointers[EsWork]) ==
            if Acceptable(w, c, id, workId)
            then SpeedboatWrite(w, c, id, workId, MergeSpeedboat(item, c.typeFiles).value, w.pointers[EsWork]) else w
  {
  }

  lemma WrittenLands(w: World, c: SpeedboatCommit, id: string, workId: string, item: WorkItem)
    requires EsWork in w.pointers
    requires item == WaitingFiles(w).(speedboatFiles := MergeFiles(WaitingFiles(w).speedboatFiles,
                                                                   DataFiles(c.typeFiles)))
    ensures Landed(w, SpeedboatWrite(w, c, id, workId, item, w.pointers[EsWork]), c, id, workId)
  {
  }

  lemma StaleIsRefused(w: World, c: SpeedboatCommit, id: string, workId: string, read: Latest)
    requires EsWork in w.pointers && read.version != w.pointers[EsWork].version
    ensures CommitSpeedboat(w, c, id, workId, read) == w
  {
  }

  lemma LandsNow(w: World, c: SpeedboatCommit, id: string, workId: string, read: Latest)
    requires Inv(w) && PointerForward(read, w.pointers[EsWork])
    ensures var v := CommitSpeedboat(w, c, id, workId, read);
            if read == w.pointers[EsWork] && Acceptable(w, c, id, workId) then Landed(w, v, c, id, workId) else v == w
  {
    if read == w.pointers[EsWork] {
      var item := WaitingFiles(w);
      WaitingIsPending(w);
      MergedItem(item, c.typeFiles);
      AcceptedIsWritten(w, c, id, workId, item);
      if Acceptable(w, c, id, workId) { WrittenLands(w, c, id, workId, MergeSpeedboat(item, c.typeFiles).value); }
    } else {
      StaleIsRefused(w, c, id, workId, read);
    }
  }

  /** In every run a speedboat commit lands exactly when it is acceptable and the pointer to the pending work is as it
      was read; then nothing that waited is lost, and otherwise nothing changes. */
  lemma SpeedboatLands(h: seq<World>, acts: seq<Action>, n: nat, c: SpeedboatCommit, id: string, workId: string, j: nat)
    requires IsRun(h, acts) && n < |acts| && j <= n && acts[n] == SpeedboatAction(c, id, workId, j)
    ensures EsWork in h[j].pointers && EsWork in h[n].pointers
    ensures if h[j].pointers[EsWork] == h[n].pointers[EsWork] && Acceptable(h[n], c, id, workId)
            then Landed(h[n], h[n + 1], c, id, workId) else h[n + 1] == h[n]
  {
    RunTake(h, acts, n);
    RunsAreSafe(h[..n + 1], acts[..n]);
    StepOf(h, acts, n);
    var g := h[..n + 1];
    assert HoldsAt(g, j) && HoldsAt(g, n);
    Now(g);
    SpeedboatIs(g, c, id, workId, j);
    ReadForward(g, j, EsWork);
    LandsNow(h[n], c, id, workId, h[j].pointers[EsWork]);
  }
}
