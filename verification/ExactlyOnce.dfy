/** Exactly-once application: in every run the latest standard checkpoint is the fold, in version
    order, of the Iceberg commits and of exactly those speedboat commits whose tracker is done. */
module ExactlyOnce {
  import opened Prelude
  import opened FileSets
  import opened Checkpoints
  import opened Descriptors
  import opened Protocol
  import opened ProtocolSafety
  import opened ProtocolRuns

  datatype Entry = Speedboat(id: string) | Iceberg(id: string)

  // ---------------------------------------------------------------- replay

  function ApplyEntry(w: World, c: Checkpoint, e: Entry): Option<Checkpoint> {
    match e
    case Speedboat(id) => if id in w.speedboats then ApplySpeedboat(c, w.speedboats[id], w.compactions) else None
    case Iceberg(id) => if id in w.icebergs then ApplyIceberg(c, w.icebergs[id], w.compactions) else None
  }

  /** The plain fold of a list of stored commits over a checkpoint. */
  function Replay(w: World, c: Checkpoint, log: seq<Entry>): Option<Checkpoint> {
    if |log| == 0 then Some(c)
    else
      match Replay(w, c, log[..|log| - 1])
      case None => None
      case Some(d) => ApplyEntry(w, d, log[|log| - 1])
  }

  lemma ReplayStep(w: World, c: Checkpoint, log: seq<Entry>, e: Entry)
    requires Replay(w, c, log).Some?
    ensures Replay(w, c, log + [e]) == ApplyEntry(w, Replay(w, c, log).value, e)
  {
    assert (log + [e])[..|log|] == log;
  }

  // ------------------------------------------- later worlds replay the same

  lemma {:induction false} RemovedGrows(ids: seq<string>, a: Compactions, b: Compactions)
    requires Grows(a, b) && Removed(ids, a).Some?
    ensures Removed(ids, b) == Removed(ids, a)
  {
    if |ids| != 0 { RemovedGrows(ids[..|ids| - 1], a, b); }
  }

  lemma ApplyEntryLater(w: World, v: World, c: Checkpoint, e: Entry)
    requires EntitiesForward(w, v) && ApplyEntry(w, c, e).Some?
    ensures ApplyEntry(v, c, e) == ApplyEntry(w, c, e)
  {
    match e {
      case Speedboat(id) =>
        if w.speedboats[id].compaction.Some? {
          RemovedGrows([w.speedboats[id].compaction.value], w.compactions, v.compactions);
        }
      case Iceberg(id) => RemovedGrows(w.icebergs[id].compactions, w.compactions, v.compactions);
    }
  }

  lemma {:induction false} ReplayLater(w: World, v: World, c: Checkpoint, log: seq<Entry>)
    requires EntitiesForward(w, v) && Replay(w, c, log).Some?
    ensures Replay(v, c, log) == Replay(w, c, log)
  {
    if |log| != 0 {
      ReplayLater(w, v, c, log[..|log| - 1]);
      ApplyEntryLater(w, v, Replay(w, c, log[..|log| - 1]).value, log[|log| - 1]);
    }
  }

  // ------------------------------- the checkpoint's own id does not matter

  lemma {:induction false} TableInfosIgnoreId(c: Checkpoint, ts: seq<TableInfo>, x: string)
    requires ApplyTableInfos(c, ts).Some?
    ensures ApplyTableInfos(c.(id := x), ts) == Some(ApplyTableInfos(c, ts).value.(id := x))
  {
    if |ts| != 0 { TableInfosIgnoreId(c, ts[..|ts| - 1], x); }
  }

  lemma SpeedboatIgnoresId(c: Checkpoint, s: SpeedboatCommit, lookup: Compactions, x: string)
    requires ApplySpeedboat(c, s, lookup).Some?
    ensures ApplySpeedboat(c.(id := x), s, lookup) == Some(ApplySpeedboat(c, s, lookup).value.(id := x))
  {
    TableInfosIgnoreId(c.(speedboat := Some(SpeedboatFiles(c)), deletes := Some(DeleteFiles(c))), s.typeFiles, x);
  }

  lemma IcebergIgnoresId(c: Checkpoint, i: IcebergCommit, lookup: Compactions, x: string)
    requires c.extensions == map[] && ApplyIceberg(c, i, lookup).Some?
    ensures ApplyIceberg(c.(id := x), i, lookup) == Some(ApplyIceberg(c, i, lookup).value.(id := x))
    ensures ApplyIceberg(c, i, lookup).value.extensions == map[]
  {
  }

  lemma {:induction false} ReplayIgnoresId(w: World, c: Checkpoint, log: seq<Entry>, x: string)
    requires c.extensions == map[] && Replay(w, c, log).Some?
    ensures Replay(w, c.(id := x), log) == Some(Replay(w, c, log).value.(id := x))
    ensures Replay(w, c, log).value.extensions == map[]
  {
    if |log| != 0 {
      ReplayIgnoresId(w, c, log[..|log| - 1], x);
      var d := Replay(w, c, log[..|log| - 1]).value;
      match log[|log| - 1] {
        case Speedboat(id) =>
          SpeedboatIgnoresId(d, w.speedboats[id], w.compactions, x);
          SpeedboatNoCoverage(d, w.speedboats[id], w.compactions);
        case Iceberg(id) => IcebergIgnoresId(d, w.icebergs[id], w.compactions, x);
      }
    }
  }

  // ------------------------------------------------- batches of one write

  function SpeedboatEntries(names: seq<string>): seq<Entry> {
    seq(|names|, i requires 0 <= i < |names| => Speedboat(names[i]))
  }

  lemma CommitsSplit(w: World, names: seq<string>)
    requires |names| > 0 && forall i :: 0 <= i < |names| ==> names[i] in w.speedboats
    ensures var m, cs := |names| - 1, CommitsNamed(w, names);
            |cs| == |names| && cs[..m] == CommitsNamed(w, names[..m]) && cs[m] == w.speedboats[names[m]]
  {
  }

  lemma EntriesSplit(log: seq<Entry>, names: seq<string>)
    requires |names| > 0
    ensures var m := |names| - 1;
            log + SpeedboatEntries(names) == (log + SpeedboatEntries(names[..m])) + [Speedboat(names[m])]
  {
  }

  lemma {:induction false} ReplaySpeedboats(w: World, c: Checkpoint, log: seq<Entry>, names: seq<string>)
    requires forall i :: 0 <= i < |names| ==> names[i] in w.speedboats
    requires Replay(w, c, log).Some?
             && ApplySpeedboats(Replay(w, c, log).value, CommitsNamed(w, names), w.compactions).Some?
    ensures Replay(w, c, log + SpeedboatEntries(names))
            == ApplySpeedboats(Replay(w, c, log).value, CommitsNamed(w, names), w.compactions)
  {
    if |names| == 0 {
      assert log + SpeedboatEntries(names) == log;
    } else {
      var m := |names| - 1;
      CommitsSplit(w, names);
      ReplaySpeedboats(w, c, log, names[..m]);
      EntriesSplit(log, names);
      ReplayStep(w, c, log + SpeedboatEntries(names[..m]), Speedboat(names[m]));
    }
  }

  lemma {:induction false} CountSpeedboats(names: seq<string>, e: Entry)
    requires NoDup(names)
    ensures multiset(SpeedboatEntries(names))[e] == if e.Speedboat? && e.id in names then 1 else 0
  {
    if |names| != 0 {
      var m := |names| - 1;
      CountSpeedboats(names[..m], e);
      assert SpeedboatEntries(names) == SpeedboatEntries(names[..m]) + [Speedboat(names[m])];
      assert forall x :: x in names <==> x in names[..m] || x == names[m];
    }
  }

  /** What an action applies to the standard checkpoint when it moves the pointer. */
  function Entries(a: Action): seq<Entry> {
    match a
    case StandardAction(names, _, _, _, _, _, _) => SpeedboatEntries(names)
    case IcebergAction(_, id, _, _, _, _, _) => [Iceberg(id)]
    case _ => []
  }

  predicate MovesStandard(w: World, v: World) {
    Describe(w, Standard) != Describe(v, Standard)
  }

  /** The batches after one more action, which takes world `w` to `v`. */
  function Extended(bs: seq<seq<Entry>>, w: World, v: World, a: Action): seq<seq<Entry>> {
    if MovesStandard(w, v) then bs + [Entries(a)] else bs
  }

  /** One batch for each version of the standard pointer after the first. */
  function Batches(h: seq<World>, acts: seq<Action>): seq<seq<Entry>>
    requires |h| == |acts| + 1
    decreases |acts|
  {
    if |acts| == 0 then []
    else
      var n := |acts| - 1;
      Extended(Batches(h[..n + 1], acts[..n]), h[n], h[n + 1], acts[n])
  }

  // ------------------------------------------------------- the invariant

  /** The latest standard checkpoint. */
  function Current(w: World): Checkpoint {
    if Standard in w.pointers && w.pointers[Standard].entityId in w.checkpoints then
      w.checkpoints[w.pointers[Standard].entityId]
    else NewCheckpoint(w.table, "")
  }

  function DoneCount(w: World, e: Entry): nat {
    match e
    case Speedboat(id) =>
      var k := TrackerKey(SpeedboatCheckpointed, id);
      if id in w.speedboats && k in w.trackers && w.trackers[k].version == -1 then 1 else 0
    case Iceberg(id) => if id in w.icebergs then 1 else 0
  }

  /** Every commit that is done is in the log once, and no other commit is. */
  ghost predicate Counted(w: World, log: seq<Entry>) {
    forall e :: multiset(log)[e] == DoneCount(w, e)
  }

  /** Replaying the log from an empty checkpoint gives the latest one. */
  ghost predicate Replayed(w: World, log: seq<Entry>) {
    Inv(w) && Replay(w, NewCheckpoint(w.table, Current(w).id), log) == Some(Current(w))
  }

  lemma ReplayedLater(w: World, v: World, log: seq<Entry>)
    requires Replayed(w, log) && Inv(v) && Forward(w, v) && v.pointers[Standard] == w.pointers[Standard]
    ensures Replayed(v, log)
  {
    assert Current(v) == Current(w);
    ReplayLater(w, v, NewCheckpoint(w.table, Current(w).id), log);
  }

  /** Applying named speedboat commits to a clone extends the replay. */
  lemma ReplayClone(w: World, log: seq<Entry>, newId: string, names: seq<string>)
    requires Replayed(w, log) && forall i :: 0 <= i < |names| ==> names[i] in w.speedboats
    requires CloneAndApply(Current(w), newId, CommitsNamed(w, names), [], [], w.compactions).Some?
    ensures Replay(w, NewCheckpoint(w.table, newId), log + SpeedboatEntries(names))
            == Some(CloneAndApply(Current(w), newId, CommitsNamed(w, names), [], [], w.compactions).value.0)
  {
    var cur := Current(w);
    ReplayIgnoresId(w, NewCheckpoint(w.table, cur.id), log, newId);
    assert RetainCurrent(cur.(id := newId)) == cur.(id := newId);
    ReplaySpeedboats(w, NewCheckpoint(w.table, newId), log, names);
  }

  lemma ReplayIceberg(w: World, log: seq<Entry>, newId: string, c: IcebergCommit)
    requires Replayed(w, log)
    requires CloneAndApply(Current(w), newId, [], [c], [], w.compactions).Some?
    ensures Replay(w, NewCheckpoint(w.table, newId), log) == Some(Current(w).(id := newId))
    ensures ApplyIceberg(Current(w).(id := newId), c, w.compactions)
            == Some(CloneAndApply(Current(w), newId, [], [c], [], w.compactions).value.0)
  {
    var cur := Current(w);
    ReplayIgnoresId(w, NewCheckpoint(w.table, cur.id), log, newId);
    assert RetainCurrent(cur.(id := newId)) == cur.(id := newId);
    assert ApplyIcebergs(cur.(id := newId), [c], w.compactions) == ApplyIceberg(cur.(id := newId), c, w.compactions);
  }

  // ------------------------------------------------------------- the steps

  lemma MarkedDone(w: World, v: World, names: seq<string>, next: Checkpoint, e: Entry)
    requires Tracked(w.trackers, w.speedboats)
    requires v.speedboats == w.speedboats && v.icebergs == w.icebergs
    requires v.trackers == AddWaiting(MarkAllDone(w.trackers, SpeedboatCheckpointed, names), CheckpointName(next), next)
    requires e.Speedboat? && e.id in names ==> e.id in w.speedboats && DoneCount(w, e) == 0
    ensures DoneCount(v, e) == DoneCount(w, e) + if e.Speedboat? && e.id in names then 1 else 0
  {
    if e.Speedboat? {
      var k := TrackerKey(SpeedboatCheckpointed, e.id);
      var t1 := MarkAllDone(w.trackers, SpeedboatCheckpointed, names);
      WaitingSame(t1, CheckpointName(next), next);
      assert k.kind == SpeedboatCheckpointed;
      assert k in w.trackers ==> t1[k] == if e.id in names then w.trackers[k].(version := -1) else w.trackers[k];
    }
  }

  lemma StandardCounted(w: World, v: World, log: seq<Entry>, names: seq<string>, next: Checkpoint)
    requires Counted(w, log) && Tracked(w.trackers, w.speedboats) && NoDup(names)
    requires forall n :: n in names ==> n in w.speedboats && DoneCount(w, Speedboat(n)) == 0
    requires v.speedboats == w.speedboats && v.icebergs == w.icebergs
    requires v.trackers == AddWaiting(MarkAllDone(w.trackers, SpeedboatCheckpointed, names), CheckpointName(next), next)
    ensures Counted(v, log + SpeedboatEntries(names))
  {
    forall e
      ensures multiset(log + SpeedboatEntries(names))[e] == DoneCount(v, e)
    {
      CountSpeedboats(names, e);
      MarkedDone(w, v, names, next, e);
    }
  }

  lemma StandardReplays(w: World, names: seq<string>, read: Trackers, p: Latest, newId: string, compact: bool,
                        q: Latest, itemId: string, log: seq<Entry>)
    requires Replayed(w, log) && PointerForward(p, w.pointers[Standard])
    requires CompactionWork in w.pointers && PointerForward(q, w.pointers[CompactionWork])
    requires UpdateStandard(w, names, read, p, newId, compact, q, itemId) != w
    ensures Replayed(UpdateStandard(w, names, read, p, newId, compact, q, itemId), log + SpeedboatEntries(names))
  {
    var v := UpdateStandard(w, names, read, p, newId, compact, q, itemId);
    var next := StandardWrites(w, names, read, p, newId, compact, q, itemId);
    StandardKeeps(w, names, read, p, newId, compact, q, itemId);
    ReplayClone(w, log, newId, names);
    ReplayLater(w, v, NewCheckpoint(w.table, newId), log + SpeedboatEntries(names));
    assert v.pointers[Standard].entityId == CheckpointName(next);
  }

  lemma StandardCounts(w: World, names: seq<string>, read: Trackers, p: Latest, newId: string, compact: bool, q: Latest,
                       itemId: string, log: seq<Entry>)
    requires Inv(w) && Counted(w, log) && PointerForward(p, w.pointers[Standard])
    requires UpdateStandard(w, names, read, p, newId, compact, q, itemId) != w
    ensures var v := UpdateStandard(w, names, read, p, newId, compact, q, itemId);
            Counted(v, log + SpeedboatEntries(names)) && Standard in v.pointers
            && v.pointers[Standard].version == w.pointers[Standard].version + 1
  {
    var next := StandardWrites(w, names, read, p, newId, compact, q, itemId);
    var v := UpdateStandard(w, names, read, p, newId, compact, q, itemId);
    forall n | n in names
      ensures n in w.speedboats && DoneCount(w, Speedboat(n)) == 0
    {
      var i :| 0 <= i < |names| && names[i] == n;
    }
    StandardCounted(w, v, log, names, next);
  }

  lemma IcebergReplays(w: World, c: IcebergCommit, id: string, newId: string, workId: string, rs: seq<Replacement>,
                       p: Latest, q: Latest, log: seq<Entry>)
    requires Replayed(w, log) && PointerForward(p, w.pointers[Standard]) && PointerForward(q, w.pointers[EsWork])
    requires CommitIceberg(w, c, id, newId, workId, rs, p, q) != w
    ensures Replayed(CommitIceberg(w, c, id, newId, workId, rs, p, q), log + [Iceberg(id)])
  {
    var v := CommitIceberg(w, c, id, newId, workId, rs, p, q);
    var next := IcebergWrites(w, c, id, newId, workId, rs, p, q);
    var item := PendingItem(w, w.pointers[EsWork]).value;
    var u := IcebergWrite(w, c, id, workId, item, next, w.pointers[Standard], w.pointers[EsWork]);
    IcebergWriteReplays(w, c, id, newId, workId, item, next, log);
    AddReplacementsSame(w, u, c, rs, next);
    AddReplacementsKeep(w, u, c, rs, next);
    ReplayedLater(u, v, log + [Iceberg(id)]);
  }

  lemma IcebergWriteReplays(w: World, c: IcebergCommit, id: string, newId: string, workId: string, item: WorkItem,
                            next: Checkpoint, log: seq<Entry>)
    requires Replayed(w, log) && next.id == newId
    requires var applied := CloneAndApply(Current(w), newId, [], [c], [], w.compactions);
             applied.Some? && next == applied.value.0
    requires var u := IcebergWrite(w, c, id, workId, item, next, w.pointers[Standard], w.pointers[EsWork]);
             Inv(u) && EntitiesForward(w, u)
    ensures Replayed(IcebergWrite(w, c, id, workId, item, next, w.pointers[Standard], w.pointers[EsWork]),
                     log + [Iceberg(id)])
  {
    var u := IcebergWrite(w, c, id, workId, item, next, w.pointers[Standard], w.pointers[EsWork]);
    ReplayIceberg(w, log, newId, c);
    ReplayLater(w, u, NewCheckpoint(w.table, newId), log);
    ReplayStep(u, NewCheckpoint(w.table, newId), log, Iceberg(id));
    assert Current(u) == next;
  }

  lemma IcebergCounted(w: World, v: World, log: seq<Entry>, c: IcebergCommit, id: string)
    requires Counted(w, log) && IcebergChanged(w, v, c, id)
    ensures Counted(v, log + [Iceberg(id)])
  {
    forall e
      ensures DoneCount(v, e) == DoneCount(w, e) + multiset([Iceberg(id)])[e]
    {
      if e.Speedboat? { assert TrackerKey(SpeedboatCheckpointed, e.id).kind == SpeedboatCheckpointed; }
    }
    assert multiset(log + [Iceberg(id)]) == multiset(log) + multiset([Iceberg(id)]);
  }

  /** What a successful `commit_iceberg` changes among the commits and their trackers. */
  ghost predicate IcebergChanged(w: World, v: World, c: IcebergCommit, id: string) {
    && v.speedboats == w.speedboats && SameSpeedboatTrackers(w.trackers, v.trackers)
    && v.compactions == w.compactions && v.compactionItems == w.compactionItems
    && id !in w.icebergs && v.icebergs == w.icebergs[id := c]
    && Standard in w.pointers && Standard in v.pointers
    && v.pointers[Standard].version == w.pointers[Standard].version + 1
    && (forall k :: k != Standard && k != EsWork ==> Describe(v, k) == Describe(w, k))
  }

  lemma IcebergWriteChanges(w: World, c: IcebergCommit, id: string, workId: string, item: WorkItem, next: Checkpoint)
    requires Standard in w.pointers && EsWork in w.pointers && id !in w.icebergs
    ensures IcebergChanged(w, IcebergWrite(w, c, id, workId, item, next, w.pointers[Standard], w.pointers[EsWork]),
                           c, id)
  {
    WaitingSame(w.trackers, CheckpointName(next), next);
  }

  lemma ChangedSame(w: World, u: World, v: World, c: IcebergCommit, id: string)
    requires IcebergChanged(w, u, c, id) && SameCommits(u, v)
    ensures IcebergChanged(w, v, c, id)
  {
    SameTransitive(w.trackers, u.trackers, v.trackers);
  }

  lemma IcebergChanges(w: World, c: IcebergCommit, id: string, newId: string, workId: string, rs: seq<Replacement>,
                       p: Latest, q: Latest)
    requires Inv(w) && PointerForward(p, w.pointers[Standard]) && PointerForward(q, w.pointers[EsWork])
    requires CommitIceberg(w, c, id, newId, workId, rs, p, q) != w
    ensures IcebergChanged(w, CommitIceberg(w, c, id, newId, workId, rs, p, q), c, id)
  {
    var next := IcebergWrites(w, c, id, newId, workId, rs, p, q);
    var item := PendingItem(w, w.pointers[EsWork]).value;
    var u := IcebergWrite(w, c, id, workId, item, next, w.pointers[Standard], w.pointers[EsWork]);
    IcebergWriteChanges(w, c, id, workId, item, next);
    AddReplacementsSame(w, u, c, rs, next);
    ChangedSame(w, u, CommitIceberg(w, c, id, newId, workId, rs, p, q), c, id);
  }

  lemma IcebergCounts(w: World, c: IcebergCommit, id: string, newId: string, workId: string, rs: seq<Replacement>,
                      p: Latest, q: Latest, log: seq<Entry>)
    requires Inv(w) && Counted(w, log) && PointerForward(p, w.pointers[Standard])
             && PointerForward(q, w.pointers[EsWork])
    requires CommitIceberg(w, c, id, newId, workId, rs, p, q) != w
    ensures var v := CommitIceberg(w, c, id, newId, workId, rs, p, q);
            Counted(v, log + [Iceberg(id)]) && Standard in v.pointers
            && v.pointers[Standard].version == w.pointers[Standard].version + 1
  {
    IcebergChanges(w, c, id, newId, workId, rs, p, q);
    IcebergCounted(w, CommitIceberg(w, c, id, newId, workId, rs, p, q), log, c, id);
  }

  lemma SameTransitive(a: Trackers, b: Trackers, c: Trackers)
    requires SameSpeedboatTrackers(a, b) && SameSpeedboatTrackers(b, c)
    ensures SameSpeedboatTrackers(a, c)
  {
  }

  lemma NewTrackerSame(ts: Trackers, kind: TrackerKind, name: string, at: int)
    requires kind != SpeedboatCheckpointed
    ensures SameSpeedboatTrackers(ts, NewTracker(ts, kind, name, at))
  {
  }

  lemma MarkDoneSame(ts: Trackers, k: TrackerKey)
    requires k.kind != SpeedboatCheckpointed
    ensures SameSpeedboatTrackers(ts, MarkDone(ts, k))
  {
  }

  /** Neither the standard pointer nor a commit or its tracker changes. */
  ghost predicate Stays(w: World, v: World) {
    && Describe(v, Standard) == Describe(w, Standard)
    && v.speedboats == w.speedboats && v.icebergs == w.icebergs
    && SameSpeedboatTrackers(w.trackers, v.trackers)
  }

  lemma StayReflexive(w: World)
    ensures Stays(w, w)
  {
  }

  lemma TrackersStay(w: World, ts: Trackers)
    requires SameSpeedboatTrackers(w.trackers, ts)
    ensures Stays(w, w.(trackers := ts))
  {
  }

  lemma PointersStay(w: World, k: PointerKey, read: Option<Latest>, id: string)
    requires k != Standard
    ensures Stays(w, CreateOrBump(w, k, read, id))
  {
  }

  lemma TakeStays(w: World, read: Latest)
    ensures Stays(w, TakeExtensionItem(w, read))
  {
    NewTrackerSame(w.trackers, EsLease, read.entityId, w.now);
  }

  lemma TakeCompactionStays(w: World, read: Latest)
    ensures Stays(w, TakeCompactionItem(w, read))
  {
    NewTrackerSame(w.trackers, CompactionLease, read.entityId, w.now);
  }

  lemma CompletedSame(ts: Trackers, id: string)
    ensures SameSpeedboatTrackers(ts, CompletedTrackers(ts, id))
  {
    var t1 := MarkDone(ts, TrackerKey(EsLease, id));
    MarkDoneSame(ts, TrackerKey(EsLease, id));
    NewTrackerSame(t1, ExtensionCheckpointed, id, UNCLAIMED_TIME);
    SameTransitive(ts, t1, CompletedTrackers(ts, id));
  }

  lemma CompleteStays(w: World, e: ExtensionCommit)
    ensures Stays(w, CompleteExtensionItem(w, e))
  {
    CompletedSame(w.trackers, e.id);
  }

  lemma MarkAllDoneSame(ts: Trackers, kind: TrackerKind, names: seq<string>)
    requires kind != SpeedboatCheckpointed
    ensures SameSpeedboatTrackers(ts, MarkAllDone(ts, kind, names))
  {
  }

  lemma ClaimedSame(ts: Trackers, names: seq<string>, stamp: int)
    ensures SameSpeedboatTrackers(ts, ClaimAll(ts, names, stamp))
  {
  }

  lemma ClaimStays(w: World, names: seq<string>, read: Trackers, readTime: int, stamp: int)
    ensures Stays(w, ClaimCleanupItems(w, names, read, readTime, stamp))
  {
    var v := ClaimCleanupItems(w, names, read, readTime, stamp);
    if v == w {
      StayReflexive(w);
    } else {
      ClaimedSame(w.trackers, names, stamp);
      TrackersStay(w, ClaimAll(w.trackers, names, stamp));
    }
  }

  lemma WaitingDoneStays(w: World, name: string, read: Trackers)
    ensures Stays(w, MarkWaitingDone(w, name, read))
  {
    var v := MarkWaitingDone(w, name, read);
    if v != w {
      assert v == w.(trackers := MarkAllDone(w.trackers, WaitingForExtension, [name]));
      MarkAllDoneSame(w.trackers, WaitingForExtension, [name]);
    }
  }

  lemma EsStays(w: World, exts: seq<string>, readExts: Trackers, name: string, readWaiting: Trackers, newId: string,
                readEs: Latest)
    ensures Stays(w, UpdateEs(w, exts, readExts, name, readWaiting, newId, readEs))
  {
  }

  lemma PublishStays(w: World, forEs: bool, committed: Latest, read: Option<Latest>)
    ensures Stays(w, PublishActive(w, forEs, committed, read))
  {
    var name := Republish(w.table, committed.entityId);
    if name.Some? { PointersStay(w, ActiveKey(forEs), read, name.value); }
  }

  lemma RequestStays(h: seq<World>, a: Action)
    requires |h| > 0 && (a.QueueRequest? || a.ClearRequest?)
    ensures Stays(h[|h| - 1], Next(h, a))
  {
    var w := h[|h| - 1];
    if Next(h, a) != w {
      match a {
        case QueueRequest(i) =>
          PointersStay(w, Request, Describe(h[i], Request), "checkpoint_publication_request#" + w.table);
        case ClearRequest(i) => PointersStay(w, Request, ReadAt(h, i, Request), NO_WORK_ITEM);
      }
    }
  }

  /** The other actions neither move the standard pointer nor finish a speedboat tracker. */
  lemma OthersStay(h: seq<World>, a: Action)
    requires |h| > 0 && !a.StandardAction? && !a.IcebergAction? && !a.SpeedboatAction?
    ensures Stays(h[|h| - 1], Next(h, a))
  {
    var w := h[|h| - 1];
    if Next(h, a) != w {
      match a {
        case Tick(_) =>
        case CompactionAction(_) =>
        case EsAction(exts, i, name, j, newId, k) =>
          EsStays(w, exts, h[i].trackers, name, h[j].trackers, newId, ReadAt(h, k, Es).value);
        case WaitingDone(name, i) => WaitingDoneStays(w, name, h[i].trackers);
        case TakeExtension(i) => TakeStays(w, ReadAt(h, i, EsWork).value);
        case CompleteExtension(e) => CompleteStays(w, e);
        case TakeCompaction(i) => TakeCompactionStays(w, ReadAt(h, i, CompactionWork).value);
        case ClaimCleanup(names, i, j) => ClaimStays(w, names, h[i].trackers, h[i].now, h[j].now);
        case CleanupDone(name) => MarkDoneSame(w.trackers, TrackerKey(CleanupLease, name));
        case Publish(forEs, i, j) =>
          PublishStays(w, forEs, ReadAt(h, i, CommittedKey(forEs)).value, Describe(h[j], ActiveKey(forEs)));
        case _ => RequestStays(h, a);
      }
    }
  }

  lemma SpeedboatStays(w: World, c: SpeedboatCommit, id: string, workId: string, read: Latest)
    requires Tracked(w.trackers, w.speedboats)
    ensures var v := CommitSpeedboat(w, c, id, workId, read);
            && Describe(v, Standard) == Describe(w, Standard)
            && (forall e :: DoneCount(v, e) == DoneCount(w, e))
  {
  }

  lemma StayCounted(w: World, v: World, log: seq<Entry>)
    requires Counted(w, log) && v.speedboats == w.speedboats && v.icebergs == w.icebergs
    requires SameSpeedboatTrackers(w.trackers, v.trackers)
    ensures Counted(v, log)
  {
    forall e
      ensures DoneCount(v, e) == DoneCount(w, e)
    {
      if e.Speedboat? { assert TrackerKey(SpeedboatCheckpointed, e.id).kind == SpeedboatCheckpointed; }
    }
  }

  // --------------------------------------------------------------- the runs

  /** The batches account for a world: one per version, counted once each, and replaying to the latest checkpoint. */
  ghost predicate Accounts(w: World, bs: seq<seq<Entry>>) {
    && Replayed(w, Flat(bs))
    && Counted(w, Flat(bs))
    && w.pointers[Standard].version == |bs|
  }

  lemma StandardAccounts(h: seq<World>, a: Action, bs: seq<seq<Entry>>)
    requires History(h) && Accounts(h[|h| - 1], bs) && (a.StandardAction? || a.IcebergAction?)
    requires Next(h, a) != h[|h| - 1]
    ensures Accounts(Next(h, a), bs + [Entries(a)])
    ensures MovesStandard(h[|h| - 1], Next(h, a))
  {
    EntriesAppended(bs, a);
    match a {
      case StandardAction(names, i, j, newId, compact, k, itemId) =>
        StandardStepAccounts(h, names, i, j, newId, compact, k, itemId, bs);
      case IcebergAction(c, id, newId, workId, rs, i, j) => IcebergStepAccounts(h, c, id, newId, workId, rs, i, j, bs);
    }
  }

  lemma EntriesAppended(bs: seq<seq<Entry>>, a: Action)
    ensures a.StandardAction? ==> bs + [Entries(a)] == bs + [SpeedboatEntries(a.names)]
    ensures a.IcebergAction? ==> bs + [Entries(a)] == bs + [[Iceberg(a.commitId)]]
  {
  }

  lemma UpdateAccounts(w: World, names: seq<string>, read: Trackers, p: Latest, newId: string, compact: bool, q: Latest,
                       itemId: string, bs: seq<seq<Entry>>)
    requires Accounts(w, bs) && PointerForward(p, w.pointers[Standard])
    requires CompactionWork in w.pointers && PointerForward(q, w.pointers[CompactionWork])
    requires UpdateStandard(w, names, read, p, newId, compact, q, itemId) != w
    ensures var v := UpdateStandard(w, names, read, p, newId, compact, q, itemId);
            Accounts(v, bs + [SpeedboatEntries(names)]) && MovesStandard(w, v)
  {
    StandardReplays(w, names, read, p, newId, compact, q, itemId, Flat(bs));
    StandardCounts(w, names, read, p, newId, compact, q, itemId, Flat(bs));
    AccountsMore(w, UpdateStandard(w, names, read, p, newId, compact, q, itemId), bs, SpeedboatEntries(names));
  }

  lemma StandardStepAccounts(h: seq<World>, names: seq<string>, i: nat, j: nat, newId: string, compact: bool, k: nat,
                             itemId: string, bs: seq<seq<Entry>>)
    requires History(h) && Accounts(h[|h| - 1], bs)
    requires Next(h, StandardAction(names, i, j, newId, compact, k, itemId)) != h[|h| - 1]
    ensures Accounts(Next(h, StandardAction(names, i, j, newId, compact, k, itemId)), bs + [SpeedboatEntries(names)])
    ensures MovesStandard(h[|h| - 1], Next(h, StandardAction(names, i, j, newId, compact, k, itemId)))
  {
    StandardIs(h, names, i, j, newId, compact, k, itemId);
    ReadForward(h, j, Standard);
    ReadForward(h, k, CompactionWork);
    UpdateAccounts(h[|h| - 1], names, h[i].trackers, ReadAt(h, j, Standard).value, newId, compact,
                   ReadAt(h, k, CompactionWork).value, itemId, bs);
  }

  /** One more batch accounts for one more version. */
  lemma AccountsMore(w: World, v: World, bs: seq<seq<Entry>>, es: seq<Entry>)
    requires Accounts(w, bs) && Replayed(v, Flat(bs) + es) && Counted(v, Flat(bs) + es)
    requires v.pointers[Standard].version == w.pointers[Standard].version + 1
    ensures Accounts(v, bs + [es]) && MovesStandard(w, v)
  {
    FlatStep(bs, es);
  }

  lemma IcebergStepAccounts(h: seq<World>, c: IcebergCommit, id: string, newId: string, workId: string,
                            rs: seq<Replacement>, i: nat, j: nat, bs: seq<seq<Entry>>)
    requires History(h) && Accounts(h[|h| - 1], bs)
    requires Next(h, IcebergAction(c, id, newId, workId, rs, i, j)) != h[|h| - 1]
    ensures Accounts(Next(h, IcebergAction(c, id, newId, workId, rs, i, j)), bs + [[Iceberg(id)]])
    ensures MovesStandard(h[|h| - 1], Next(h, IcebergAction(c, id, newId, workId, rs, i, j)))
  {
    var w := h[|h| - 1];
    var p, q := ReadAt(h, i, Standard).value, ReadAt(h, j, EsWork).value;
    IcebergIs(h, c, id, newId, workId, rs, i, j);
    ReadForward(h, i, Standard);
    ReadForward(h, j, EsWork);
    IcebergReplays(w, c, id, newId, workId, rs, p, q, Flat(bs));
    IcebergCounts(w, c, id, newId, workId, rs, p, q, Flat(bs));
    AccountsMore(w, CommitIceberg(w, c, id, newId, workId, rs, p, q), bs, [Iceberg(id)]);
  }

  lemma OthersAccount(h: seq<World>, a: Action, bs: seq<seq<Entry>>)
    requires History(h) && Accounts(h[|h| - 1], bs) && !a.StandardAction? && !a.IcebergAction?
    ensures Accounts(Next(h, a), bs)
    ensures !MovesStandard(h[|h| - 1], Next(h, a))
  {
    var w, v := h[|h| - 1], Next(h, a);
    NextKeeps(h, a);
    if a.SpeedboatAction? {
      if ReadAt(h, a.esWorkAt, EsWork).Some? {
        SpeedboatStays(w, a.commit, a.commitId, a.workId, ReadAt(h, a.esWorkAt, EsWork).value);
      }
    } else {
      OthersStay(h, a);
      StayCounted(w, v, Flat(bs));
    }
    ReplayedLater(w, v, Flat(bs));
  }

  lemma StepAccounts(h: seq<World>, a: Action, bs: seq<seq<Entry>>)
    requires History(h) && Accounts(h[|h| - 1], bs)
    ensures Accounts(Next(h, a), Extended(bs, h[|h| - 1], Next(h, a), a))
  {
    if a.StandardAction? || a.IcebergAction? {
      if Next(h, a) != h[|h| - 1] { StandardAccounts(h, a, bs); }
    } else {
      OthersAccount(h, a, bs);
    }
  }

  lemma InitAccounts(w: World)
    requires StartsEmpty(w) && Inv(w)
    ensures Accounts(w, [])
  {
  }

  /** The batches of a run account for its last world. */
  ghost predicate Accounted(h: seq<World>, acts: seq<Action>) {
    |h| == |acts| + 1 && Accounts(h[|acts|], Batches(h, acts))
  }

  lemma EmptyAccounts(h: seq<World>, acts: seq<Action>)
    requires IsRun(h, acts) && |acts| == 0
    ensures Accounted(h, acts)
  {
    StartOf(h, acts);
    InitHolds(h);
    InitAccounts(h[0]);
  }

  lemma RunAccounts(h: seq<World>, acts: seq<Action>, w: World, v: World, bs: seq<seq<Entry>>)
    requires |h| == |acts| + 1 && |acts| > 0 && StepsTo(h, acts, |acts| - 1) && History(h[..|acts|])
    requires w == h[|acts| - 1] && v == h[|acts|] && bs == Batches(h[..|acts|], acts[..|acts| - 1]) && Accounts(w, bs)
    ensures Accounts(v, Extended(bs, w, v, acts[|acts| - 1]))
  {
    StepAccounts(h[..|acts|], acts[|acts| - 1], bs);
  }

  lemma BatchesStep(h: seq<World>, acts: seq<Action>)
    requires |h| == |acts| + 1 && |acts| > 0
    ensures Batches(h, acts)
            == Extended(Batches(h[..|acts|], acts[..|acts| - 1]), h[|acts| - 1], h[|acts|], acts[|acts| - 1])
  {
  }

  lemma LastAccounts(h: seq<World>, acts: seq<Action>)
    requires IsRun(h, acts) && |acts| > 0 && History(h[..|acts|])
    requires Accounted(h[..|acts|], acts[..|acts| - 1])
    ensures Accounted(h, acts)
  {
    assert h[..|acts|][|acts| - 1] == h[|acts| - 1];
    BatchesStep(h, acts);
    StepOf(h, acts, |acts| - 1);
    RunAccounts(h, acts, h[|acts| - 1], h[|acts|], Batches(h[..|acts|], acts[..|acts| - 1]));
  }

  /** In every run, however stale the reads: the latest standard checkpoint is the replay of one batch per
      pointer version, in version order, and together the batches hold every Iceberg commit and every
      speedboat commit whose tracker is done exactly once, and nothing else. */
  lemma {:induction false} LatestIsReplay(h: seq<World>, acts: seq<Action>)
    requires IsRun(h, acts)
    ensures Accounted(h, acts)
    decreases |acts|
  {
    if |acts| == 0 {
      EmptyAccounts(h, acts);
    } else {
      RunPrefix(h, acts);
      LatestIsReplay(h[..|acts|], acts[..|acts| - 1]);
      RunsAreSafe(h[..|acts|], acts[..|acts| - 1]);
      LastAccounts(h, acts);
    }
  }
}
