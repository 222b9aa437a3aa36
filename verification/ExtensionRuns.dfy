/** The indexing work items in runs: an item is pending, or handed out under a lease, or completed, and never two of
    these.  So a worker with present reads can always take the pending item, and complete the one it holds. */
module ExtensionRuns {
  import opened Prelude
  import opened FileSets
  import opened Checkpoints
  import opened Descriptors
  import opened Protocol
  import opened ProtocolSafety
  import opened ProtocolRuns

  /** What the store knows about one work item. */
  datatype ItemView = ItemView(
    pending: Option<Latest>, stored: bool, lease: Option<Tracker>, tracked: Option<Tracker>, completed: bool)

  function TrackerAt(ts: Trackers, kind: TrackerKind, n: string): Option<Tracker> {
    if TrackerKey(kind, n) in ts then Some(ts[TrackerKey(kind, n)]) else None
  }

  function ViewOf(w: World, n: string): ItemView {
    ItemView(Describe(w, EsWork), n in w.workItems, TrackerAt(w.trackers, EsLease, n),
             TrackerAt(w.trackers, ExtensionCheckpointed, n), n in w.extensionCommits)
  }

  predicate IsPending(x: ItemView, n: string) { x.pending.Some? && x.pending.value.entityId == n }

  /** A leased item is stored and not pending, its lease is outstanding or done, and it is done exactly when the item
      is completed, which is when its commit has a tracker. */
  predicate ViewGood(x: ItemView, n: string) {
    && (x.lease.Some? ==> x.stored && !IsPending(x, n) && -1 <= x.lease.value.version <= 0)
    && (x.completed <==> x.lease.Some? && x.lease.value.version == -1)
    && (x.tracked.Some? <==> x.completed)
  }

  predicate ItemGood(w: World, n: string) { ViewGood(ViewOf(w, n), n) }

  // --------------------------------------------------------- other trackers do not matter

  /** The trackers of the two kinds are the same. */
  ghost predicate SameLeases(ts: Trackers, us: Trackers, n: string) {
    TrackerAt(us, EsLease, n) == TrackerAt(ts, EsLease, n)
    && TrackerAt(us, ExtensionCheckpointed, n) == TrackerAt(ts, ExtensionCheckpointed, n)
  }

  lemma NewSame(ts: Trackers, kind: TrackerKind, name: string, at: int, n: string)
    requires kind != EsLease && kind != ExtensionCheckpointed
    ensures SameLeases(ts, NewTracker(ts, kind, name, at), n)
  {
  }

  lemma DoneSame(ts: Trackers, kind: TrackerKind, name: string, n: string)
    requires kind != EsLease && kind != ExtensionCheckpointed
    ensures SameLeases(ts, MarkDone(ts, TrackerKey(kind, name)), n)
  {
  }

  lemma AllDoneSame(ts: Trackers, kind: TrackerKind, names: seq<string>, n: string)
    requires kind != EsLease && kind != ExtensionCheckpointed
    ensures SameLeases(ts, MarkAllDone(ts, kind, names), n)
  {
  }

  lemma AddWaitingSame(ts: Trackers, name: string, c: Checkpoint, n: string)
    ensures SameLeases(ts, AddWaiting(ts, name, c), n)
  {
    if !CoveredByCount(c, "es") { NewSame(ts, WaitingForExtension, name, UNCLAIMED_TIME, n); }
  }

  lemma ReplacementSame(w: World, name: string, r: Replacement, k: CompactionCommit, next: Checkpoint, n: string)
    ensures ViewOf(ReplacementWrite(w, name, r, k, next), n) == ViewOf(w, n)
  {
    var t1 := AddWaiting(w.trackers, name, next);
    var t2 := MarkDone(t1, TrackerKey(CompactionLease, r.compactionId));
    AddWaitingSame(w.trackers, name, next, n);
    DoneSame(t1, CompactionLease, r.compactionId, n);
    NewSame(t2, CleanupLease, r.cleanupId, UNCLAIMED_TIME, n);
  }

  lemma {:induction false} ReplacementsSame(start: World, w: World, c: IcebergCommit, rs: seq<Replacement>,
                                            next: Checkpoint, n: string)
    requires AddReplacements(start, w, c, rs, next).Some?
    ensures ViewOf(AddReplacements(start, w, c, rs, next).value, n) == ViewOf(w, n)
  {
    if |rs| != 0 {
      var m := |rs| - 1;
      ReplacementsSame(start, w, c, rs[..m], next, n);
      var v, r := AddReplacements(start, w, c, rs[..m], next).value, rs[m];
      var k := start.compactions[r.compactionId];
      var name := FullName(Descriptor(v.table, r.checkpointId, Some(k.checkpointIdToReplace)));
      ReplacementSame(v, name, r, k, next, n);
    }
  }

  // -------------------------------------------------------------- a new pending item

  /** The view once a new item is pending. */
  function WithPending(x: ItemView, n: string, p: Latest): ItemView {
    x.(pending := Some(p), stored := x.stored || n == p.entityId)
  }

  lemma PendingGood(x: ItemView, n: string, p: Latest)
    requires ViewGood(x, n) && (n == p.entityId ==> !x.stored)
    ensures ViewGood(WithPending(x, n, p), n)
  {
  }

  lemma SpeedboatView(w: World, c: SpeedboatCommit, id: string, workId: string, item: WorkItem, read: Latest, n: string)
    ensures ViewOf(SpeedboatWrite(w, c, id, workId, item, read), n)
            == WithPending(ViewOf(w, n), n, Latest(read.version + 1, workId))
  {
    NewSame(w.trackers, SpeedboatCheckpointed, id, UNCLAIMED_TIME, n);
  }

  lemma SpeedboatItem(w: World, c: SpeedboatCommit, id: string, workId: string, read: Latest, n: string)
    requires ItemGood(w, n)
    ensures ItemGood(CommitSpeedboat(w, c, id, workId, read), n)
  {
    var v := CommitSpeedboat(w, c, id, workId, read);
    if v != w {
      var item := MergeSpeedboat(PendingItem(w, read).value, c.typeFiles).value;
      SpeedboatView(w, c, id, workId, item, read, n);
      PendingGood(ViewOf(w, n), n, Latest(read.version + 1, workId));
    }
  }

  lemma IcebergView(w: World, c: IcebergCommit, id: string, workId: string, item: WorkItem, next: Checkpoint,
                    p: Latest, q: Latest, n: string)
    ensures ViewOf(IcebergWrite(w, c, id, workId, item, next, p, q), n)
            == WithPending(ViewOf(w, n), n, Latest(q.version + 1, workId))
  {
    var v := IcebergWrite(w, c, id, workId, item, next, p, q);
    AddWaitingSame(w.trackers, CheckpointName(next), next, n);
    BumpedTwice(w.pointers, p, q, CheckpointName(next), workId);
    assert Describe(v, EsWork) == Some(Latest(q.version + 1, workId));
    SameFields(w, v, n, Latest(q.version + 1, workId));
  }

  lemma BumpedTwice(ps: Pointers, p: Latest, q: Latest, name: string, workId: string)
    ensures var r := Bump(Bump(ps, Standard, p, name), EsWork, q, workId);
            EsWork in r && r[EsWork] == Latest(q.version + 1, workId)
  {
  }

  lemma SameFields(w: World, v: World, n: string, p: Latest)
    requires Describe(v, EsWork) == Some(p) && SameLeases(w.trackers, v.trackers, n)
    requires (n in v.workItems <==> n in w.workItems || n == p.entityId) && v.extensionCommits == w.extensionCommits
    ensures ViewOf(v, n) == WithPending(ViewOf(w, n), n, p)
  {
  }

  lemma IcebergItem(w: World, c: IcebergCommit, id: string, newId: string, workId: string, rs: seq<Replacement>,
                    p: Latest, q: Latest, n: string)
    requires Inv(w) && PointerForward(p, w.pointers[Standard]) && PointerForward(q, w.pointers[EsWork])
    requires ItemGood(w, n)
    ensures ItemGood(CommitIceberg(w, c, id, newId, workId, rs, p, q), n)
  {
    var v := CommitIceberg(w, c, id, newId, workId, rs, p, q);
    if v != w {
      var next := IcebergGuard(w, c, id, newId, workId, rs, p, q);
      var item := PendingItem(w, w.pointers[EsWork]).value;
      var u := IcebergWrite(w, c, id, workId, item, next, w.pointers[Standard], w.pointers[EsWork]);
      IcebergView(w, c, id, workId, item, next, w.pointers[Standard], w.pointers[EsWork], n);
      ReplacementsSame(w, u, c, rs, next, n);
      PendingGood(ViewOf(w, n), n, Latest(w.pointers[EsWork].version + 1, workId));
    }
  }

  // ------------------------------------------------------------ handing out and completing

  lemma TakeItem(w: World, read: Latest, n: string)
    requires Inv(w) && PointerForward(read, w.pointers[EsWork]) && ItemGood(w, n)
    ensures ItemGood(TakeExtensionItem(w, read), n)
  {
    if TakeExtensionItem(w, read) != w { assert read == w.pointers[EsWork]; }
  }

  lemma CompleteItem(w: World, e: ExtensionCommit, n: string)
    requires ItemGood(w, n)
    ensures ItemGood(CompleteExtensionItem(w, e), n)
  {
  }

  // ------------------------------------------------------------------ the other actions

  lemma StandardItem(w: World, names: seq<string>, read: Trackers, p: Latest, newId: string, compact: bool, q: Latest,
                     itemId: string, n: string)
    ensures ViewOf(UpdateStandard(w, names, read, p, newId, compact, q, itemId), n) == ViewOf(w, n)
  {
    var v := UpdateStandard(w, names, read, p, newId, compact, q, itemId);
    if v != w {
      var next :=
        CloneAndApply(w.checkpoints[p.entityId], newId, CommitsNamed(w, names), [], [], w.compactions).value.0;
      StandardView(w, names, next, p, n);
    }
  }

  lemma StandardView(w: World, names: seq<string>, next: Checkpoint, p: Latest, n: string)
    ensures ViewOf(StandardWrite(w, names, next, p), n) == ViewOf(w, n)
  {
    var t1 := MarkAllDone(w.trackers, SpeedboatCheckpointed, names);
    AllDoneSame(w.trackers, SpeedboatCheckpointed, names, n);
    AddWaitingSame(t1, CheckpointName(next), next, n);
  }

  lemma EsItem(w: World, exts: seq<string>, readExts: Trackers, name: string, readWaiting: Trackers, newId: string,
               p: Latest, n: string)
    ensures ViewOf(UpdateEs(w, exts, readExts, name, readWaiting, newId, p), n) == ViewOf(w, n)
  {
  }

  lemma ClaimItem(w: World, names: seq<string>, read: Trackers, readTime: int, stamp: int, n: string)
    ensures ViewOf(ClaimCleanupItems(w, names, read, readTime, stamp), n) == ViewOf(w, n)
  {
  }

  lemma WriteItem(w: World, k: PointerKey, read: Option<Latest>, id: string, n: string)
    requires k != EsWork
    ensures ViewOf(CreateOrBump(w, k, read, id), n) == ViewOf(w, n)
  {
  }

  lemma PublicationItem(h: seq<World>, a: Action, n: string)
    requires |h| > 0 && (a.Publish? || a.QueueRequest? || a.ClearRequest?)
    ensures ViewOf(Next(h, a), n) == ViewOf(h[|h| - 1], n)
  {
    var w := h[|h| - 1];
    match a {
      case Publish(forEs, i, j) =>
        PublishIs(h, forEs, i, j);
        if Publishes(h, forEs, i, j) {
          WriteItem(w, ActiveKey(forEs), Describe(h[j], ActiveKey(forEs)),
                    Republish(w.table, ReadAt(h, i, CommittedKey(forEs)).value.entityId).value, n);
        }
      case QueueRequest(i) =>
        QueueIs(h, i);
        if i < |h| { WriteItem(w, Request, Describe(h[i], Request), "checkpoint_publication_request#" + w.table, n); }
      case ClearRequest(i) =>
        ClearIs(h, i);
        if ReadAt(h, i, Request).Some? { WriteItem(w, Request, Describe(h[i], Request), NO_WORK_ITEM, n); }
    }
  }

  lemma TakeCompactionItemView(w: World, read: Latest, n: string)
    ensures ViewOf(TakeCompactionItem(w, read), n) == ViewOf(w, n)
  {
    if TakeCompactionItem(w, read) != w { NewSame(w.trackers, CompactionLease, read.entityId, w.now, n); }
  }

  lemma WaitingItem(w: World, name: string, read: Trackers, n: string)
    ensures ViewOf(MarkWaitingDone(w, name, read), n) == ViewOf(w, n)
  {
    AllDoneSame(w.trackers, WaitingForExtension, [name], n);
  }

  lemma FinishItem(w: World, name: string, n: string)
    ensures ViewOf(FinishCleanup(w, name), n) == ViewOf(w, n)
  {
    DoneSame(w.trackers, CleanupLease, name, n);
  }

  lemma CheckpointActions(h: seq<World>, a: Action, n: string)
    requires |h| > 0 && (a.StandardAction? || a.EsAction? || a.WaitingDone?)
    ensures ViewOf(Next(h, a), n) == ViewOf(h[|h| - 1], n)
  {
    var w := h[|h| - 1];
    match a {
      case StandardAction(names, i, j, newId, compact, k, itemId) =>
        StandardIs(h, names, i, j, newId, compact, k, itemId);
        if i < |h| && ReadAt(h, j, Standard).Some? && ReadAt(h, k, CompactionWork).Some? {
          StandardItem(w, names, h[i].trackers, ReadAt(h, j, Standard).value, newId, compact,
                       ReadAt(h, k, CompactionWork).value, itemId, n);
        }
      case EsAction(exts, i, name, j, newId, k) =>
        EsIs(h, exts, i, name, j, newId, k);
        if i < |h| && j < |h| && ReadAt(h, k, Es).Some? {
          EsItem(w, exts, h[i].trackers, name, h[j].trackers, newId, ReadAt(h, k, Es).value, n);
        }
      case WaitingDone(name, i) =>
        WaitingIs(h, name, i);
        if i < |h| { WaitingItem(w, name, h[i].trackers, n); }
    }
  }

  lemma OtherActions(h: seq<World>, a: Action, n: string)
    requires |h| > 0
    requires a.Tick? || a.CompactionAction? || a.TakeCompaction? || a.ClaimCleanup? || a.CleanupDone?
    ensures ViewOf(Next(h, a), n) == ViewOf(h[|h| - 1], n)
  {
    var w := h[|h| - 1];
    match a {
      case Tick(now) => TickIs(h, now);
      case CompactionAction(k) =>
      case TakeCompaction(i) =>
        TakeCompactionIs(h, i);
        if ReadAt(h, i, CompactionWork).Some? { TakeCompactionItemView(w, ReadAt(h, i, CompactionWork).value, n); }
      case ClaimCleanup(names, i, j) =>
        ClaimIs(h, names, i, j);
        if i <= j < |h| { ClaimItem(w, names, h[i].trackers, h[i].now, h[j].now, n); }
      case CleanupDone(name) => FinishItem(w, name, n);
    }
  }

  // ------------------------------------------------------------------------- runs

  lemma WorkActions(h: seq<World>, a: Action, n: string)
    requires History(h) && ItemGood(h[|h| - 1], n)
    requires a.SpeedboatAction? || a.IcebergAction? || a.TakeExtension? || a.CompleteExtension?
    ensures ItemGood(Next(h, a), n)
  {
    Now(h);
    match a {
      case SpeedboatAction(c, id, workId, i) =>
        SpeedboatIs(h, c, id, workId, i);
        if ReadAt(h, i, EsWork).Some? { SpeedboatItem(h[|h| - 1], c, id, workId, ReadAt(h, i, EsWork).value, n); }
      case IcebergAction(c, id, newId, workId, rs, i, j) =>
        IcebergIs(h, c, id, newId, workId, rs, i, j);
        if ReadAt(h, i, Standard).Some? && ReadAt(h, j, EsWork).Some? {
          ReadForward(h, i, Standard);
          ReadForward(h, j, EsWork);
          IcebergItem(h[|h| - 1], c, id, newId, workId, rs, ReadAt(h, i, Standard).value,
                      ReadAt(h, j, EsWork).value, n);
        }
      case TakeExtension(i) =>
        TakeIs(h, i);
        if ReadAt(h, i, EsWork).Some? {
          ReadForward(h, i, EsWork);
          TakeItem(h[|h| - 1], ReadAt(h, i, EsWork).value, n);
        }
      case CompleteExtension(e) => CompleteItem(h[|h| - 1], e, n);
    }
  }

  lemma StepItem(h: seq<World>, a: Action, n: string)
    requires History(h) && ItemGood(h[|h| - 1], n)
    ensures ItemGood(Next(h, a), n)
  {
    if a.SpeedboatAction? || a.IcebergAction? || a.TakeExtension? || a.CompleteExtension? {
      WorkActions(h, a, n);
    } else if a.StandardAction? || a.EsAction? || a.WaitingDone? {
      CheckpointActions(h, a, n);
    } else if a.Publish? || a.QueueRequest? || a.ClearRequest? {
      PublicationItem(h, a, n);
    } else {
      OtherActions(h, a, n);
    }
  }

  lemma StartItem(w: World, n: string)
    requires StartsEmpty(w)
    ensures ItemGood(w, n)
  {
  }

  /** In every run and for every work item: it is pending, or out under an outstanding lease, or completed, or none of
      these, and never two of them. */
  lemma {:induction false} ItemsAreGood(h: seq<World>, acts: seq<Action>, i: nat, n: string)
    requires IsRun(h, acts) && i < |h|
    ensures ItemGood(h[i], n)
    decreases i
  {
    if i == 0 {
      StartOf(h, acts);
      StartItem(h[0], n);
    } else {
      ItemsAreGood(h, acts, i - 1, n);
      RunTake(h, acts, i - 1);
      RunsAreSafe(h[..i], acts[..i - 1]);
      StepOf(h, acts, i - 1);
      StepItem(h[..i], acts[i - 1], n);
    }
  }

  // --------------------------------------------------------------------- progress

  lemma TakeNow(w: World)
    requires EsWork in w.pointers && w.pointers[EsWork].entityId != NO_WORK_ITEM
    requires ItemGood(w, w.pointers[EsWork].entityId)
    ensures var n, x := w.pointers[EsWork].entityId, ViewOf(TakeExtensionItem(w, w.pointers[EsWork]),
                                                            w.pointers[EsWork].entityId);
            IsPending(x, NO_WORK_ITEM) && x.lease == Some(Tracker(0, w.now)) && !x.completed
  {
  }

  /** A worker that reads the pointer and takes the item gets it, whatever happened before: nothing is pending
      afterwards, and the item is out under a lease of now. */
  lemma PendingIsTaken(h: seq<World>, acts: seq<Action>, i: nat)
    requires IsRun(h, acts) && i < |acts| && acts[i] == TakeExtension(i)
    requires EsWork in h[i].pointers && h[i].pointers[EsWork].entityId != NO_WORK_ITEM
    ensures var x := ViewOf(h[i + 1], h[i].pointers[EsWork].entityId);
            IsPending(x, NO_WORK_ITEM) && x.lease == Some(Tracker(0, h[i].now)) && !x.completed
  {
    ItemsAreGood(h, acts, i, h[i].pointers[EsWork].entityId);
    StepOf(h, acts, i);
    TakeIs(h[..i + 1], i);
    TakeNow(h[i]);
  }

  lemma CompleteNow(w: World, e: ExtensionCommit)
    requires ItemGood(w, e.id)
    ensures var lease, v := ViewOf(w, e.id).lease, CompleteExtensionItem(w, e);
            if lease.Some? && lease.value.version == 0 then
              && e.id in v.extensionCommits && v.extensionCommits[e.id] == e
              && ViewOf(v, e.id).lease.Some? && ViewOf(v, e.id).lease.value.version == -1
              && ViewOf(v, e.id).tracked == Some(Tracker(0, UNCLAIMED_TIME))
            else v == w
  {
  }

  /** An item is completed exactly once: while its lease is outstanding its commit is stored and waits to be applied,
      and otherwise nothing changes. */
  lemma LeasedIsCompleted(h: seq<World>, acts: seq<Action>, i: nat, e: ExtensionCommit)
    requires IsRun(h, acts) && i < |acts| && acts[i] == CompleteExtension(e)
    ensures var lease := ViewOf(h[i], e.id).lease;
            if lease.Some? && lease.value.version == 0 then
              && e.id in h[i + 1].extensionCommits && h[i + 1].extensionCommits[e.id] == e
              && ViewOf(h[i + 1], e.id).lease.Some? && ViewOf(h[i + 1], e.id).lease.value.version == -1
              && ViewOf(h[i + 1], e.id).tracked == Some(Tracker(0, UNCLAIMED_TIME))
            else h[i + 1] == h[i]
  {
    ItemsAreGood(h, acts, i, e.id);
    StepOf(h, acts, i);
    CompleteNow(h[i], e);
  }
}
