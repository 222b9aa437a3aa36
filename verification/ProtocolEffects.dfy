/** What the remaining actions bring about when their reads are of the present: trackers finish, leases are claimed,
    covered checkpoints are published, and compacted checkpoints are replaced. */
module ProtocolEffects {
  import opened Prelude
  import opened FileSets
  import opened Checkpoints
  import opened CheckpointContents
  import opened Descriptors
  import opened Protocol
  import opened ProtocolSafety
  import opened ProtocolRuns
  import opened ExactlyOnce
  import opened CompactionRuns

  predicate IsOpen(ts: Trackers, k: TrackerKey) { k in ts && ts[k].version != -1 }

  predicate IsDone(ts: Trackers, k: TrackerKey) { k in ts && ts[k].version == -1 }

  // ------------------------------------------------------------- finishing trackers

  lemma WaitingNow(w: World, name: string)
    requires IsOpen(w.trackers, TrackerKey(WaitingForExtension, name))
    ensures IsDone(MarkWaitingDone(w, name, w.trackers).trackers, TrackerKey(WaitingForExtension, name))
  {
    assert Pending(w.trackers, WaitingForExtension, [name]);
    assert SameVersions(w.trackers, w.trackers, WaitingForExtension, [name]);
  }

  /** An open waiting tracker that is marked done is done. */
  lemma WaitingFinishes(h: seq<World>, acts: seq<Action>, i: nat, name: string)
    requires IsRun(h, acts) && i < |acts| && acts[i] == WaitingDone(name, i)
    requires IsOpen(h[i].trackers, TrackerKey(WaitingForExtension, name))
    ensures IsDone(h[i + 1].trackers, TrackerKey(WaitingForExtension, name))
  {
    StepOf(h, acts, i);
    WaitingIs(h[..i + 1], name, i);
    WaitingNow(h[i], name);
  }

  /** A finished cleanup is done. */
  lemma CleanupFinishes(h: seq<World>, acts: seq<Action>, i: nat, name: string)
    requires IsRun(h, acts) && i < |acts| && acts[i] == CleanupDone(name)
    ensures IsDone(h[i + 1].trackers, TrackerKey(CleanupLease, name))
  {
    StepOf(h, acts, i);
    assert h[..i + 1][i] == h[i];
  }

  /** The lease is open and its claim is more than a lease length ago. */
  predicate Expired(w: World, name: string) {
    IsOpen(w.trackers, TrackerKey(CleanupLease, name))
    && w.trackers[TrackerKey(CleanupLease, name)].claimedAt + LEASE_LENGTH_MS < w.now
  }

  lemma ClaimNow(w: World, names: seq<string>, name: string)
    requires NoDup(names) && name in names && forall x :: x in names ==> Expired(w, x)
    ensures var v, k := ClaimCleanupItems(w, names, w.trackers, w.now, w.now), TrackerKey(CleanupLease, name);
            k in w.trackers && k in v.trackers && v.trackers[k] == Tracker(w.trackers[k].version + 1, w.now)
  {
    forall i | 0 <= i < |names|
      ensures IsOpen(w.trackers, TrackerKey(CleanupLease, names[i])) && Expired(w, names[i])
    {
      assert names[i] in names;
    }
    assert Claimable(w.trackers, names, w.now) && SameVersions(w.trackers, w.trackers, CleanupLease, names);
  }

  /** Expired leases can be claimed together, and then belong to a new claim of now. */
  lemma ExpiredAreClaimed(h: seq<World>, acts: seq<Action>, i: nat, names: seq<string>, name: string)
    requires IsRun(h, acts) && i < |acts| && acts[i] == ClaimCleanup(names, i, i)
    requires NoDup(names) && name in names && forall x :: x in names ==> Expired(h[i], x)
    ensures var k := TrackerKey(CleanupLease, name);
            && k in h[i].trackers && k in h[i + 1].trackers
            && h[i + 1].trackers[k] == Tracker(h[i].trackers[k].version + 1, h[i].now)
  {
    StepOf(h, acts, i);
    ClaimIs(h[..i + 1], names, i, i);
    ClaimNow(h[i], names, name);
  }

  // ------------------------------------------------------------- publishing coverage

  lemma {:induction false} AddCoveragesOnly(c: Checkpoint, es: seq<ExtensionCommit>)
    ensures AddCoverages(c, es).0 == c.(extensions := AddCoverages(c, es).0.extensions)
  {
    if |es| != 0 { AddCoveragesOnly(c, es[..|es| - 1]); }
  }

  /** The covered form of a checkpoint has its contents, a new id, and the name of the checkpoint it stands for. */
  lemma CoveredForm(w: World, c: Checkpoint, exts: seq<string>, newId: string)
    requires forall i :: 0 <= i < |exts| ==> exts[i] in w.extensionCommits
    ensures Covered(w, c, exts, newId).Some?
    ensures var d := Covered(w, c, exts, newId).value;
            d == c.(id := newId, originalId := Some(if c.originalId.Some? then c.originalId.value else c.id),
                    extensions := d.extensions)
  {
    AddCoveragesOnly(RetainCurrent(c.(id := newId)), ExtensionsNamed(w, exts));
  }

  /** The covered form of a stored checkpoint that may be published. */
  ghost predicate Publishable(w: World, name: string, exts: seq<string>, newId: string, next: Checkpoint) {
    && |exts| > 0 && name in w.checkpoints && IsOpen(w.trackers, TrackerKey(WaitingForExtension, name))
    && (forall i :: 0 <= i < |exts| ==>
          exts[i] in w.extensionCommits && IsOpen(w.trackers, TrackerKey(ExtensionCheckpointed, exts[i])))
    && Covered(w, w.checkpoints[name], exts, newId) == Some(next) && CoveredByCount(next, "es")
    && GeneratedId(newId) && CheckpointName(next) !in w.checkpoints
    && Es in w.pointers && Less(w.pointers[Es].entityId, CheckpointName(next))
  }

  lemma EsNow(w: World, name: string, exts: seq<string>, newId: string, next: Checkpoint)
    requires Publishable(w, name, exts, newId, next)
    ensures UpdateEs(w, exts, w.trackers, name, w.trackers, newId, w.pointers[Es]) == EsWrite(w, next, w.pointers[Es])
  {
    assert Pending(w.trackers, ExtensionCheckpointed, exts) && Pending(w.trackers, WaitingForExtension, [name]);
  }

  lemma EsWritten(w: World, next: Checkpoint, p: Latest)
    ensures var v := EsWrite(w, next, p);
            && Es in v.pointers && v.pointers[Es].entityId == CheckpointName(next)
            && CheckpointName(next) in v.checkpoints && v.checkpoints[CheckpointName(next)] == next
  {
  }

  /** A waiting checkpoint that pending extension commits cover becomes the latest one for readers of the index. */
  lemma CoveredIsPublished(h: seq<World>, acts: seq<Action>, i: nat, name: string, exts: seq<string>, newId: string,
                           next: Checkpoint)
    requires IsRun(h, acts) && i < |acts| && acts[i] == EsAction(exts, i, name, i, newId, i)
    requires Publishable(h[i], name, exts, newId, next)
    ensures Es in h[i + 1].pointers && h[i + 1].pointers[Es].entityId == CheckpointName(next)
    ensures CheckpointName(next) in h[i + 1].checkpoints && h[i + 1].checkpoints[CheckpointName(next)] == next
  {
    StepOf(h, acts, i);
    EsIs(h[..i + 1], exts, i, name, i, newId, i);
    EsNow(h[i], name, exts, newId, next);
    EsWritten(h[i], next, h[i].pointers[Es]);
  }

  // ------------------------------------------------------------ replaced checkpoints

  /** What one replacement leaves in the store: the new checkpoint under the name of the replaced one, a finished
      compaction lease, and the compacted files under a cleanup lease that nobody has claimed. */
  ghost predicate Replaced(start: World, v: World, r: Replacement, next: Checkpoint) {
    && r.compactionId in start.compactions
    && (var k := start.compactions[r.compactionId];
        var name := FullName(Descriptor(start.table, r.checkpointId, Some(k.checkpointIdToReplace)));
        && name in v.checkpoints && v.checkpoints[name] == next
        && r.cleanupId in v.cleanupItems
        && v.cleanupItems[r.cleanupId] == k.removedSpeedboatFiles + k.removedDeleteFiles)
    && IsDone(v.trackers, TrackerKey(CompactionLease, r.compactionId))
    && TrackerKey(CleanupLease, r.cleanupId) in v.trackers
    && v.trackers[TrackerKey(CleanupLease, r.cleanupId)] == Tracker(0, UNCLAIMED_TIME)
  }

  lemma ReplacedNow(start: World, w: World, c: IcebergCommit, r: Replacement, next: Checkpoint, v: World)
    requires w.table == start.table && AddReplacement(start, w, c, r, next) == Some(v)
    ensures Replaced(start, v, r, next)
  {
  }

  /** Done trackers stay done, and trackers other than compaction leases stay as they are. */
  ghost predicate KeepsTrackers(ts: Trackers, us: Trackers) {
    && (forall k :: IsDone(ts, k) ==> IsDone(us, k))
    && (forall k: TrackerKey :: k.kind != CompactionLease && k in ts ==> k in us && us[k] == ts[k])
  }

  /** A step leaves what an earlier replacement has stored. */
  ghost predicate KeepsStored(w: World, v: World) {
    && v.table == w.table && Grows(w.checkpoints, v.checkpoints) && Grows(w.cleanupItems, v.cleanupItems)
    && KeepsTrackers(w.trackers, v.trackers)
  }

  lemma NewKeepsTrackers(ts: Trackers, kind: TrackerKind, name: string)
    requires TrackerKey(kind, name) !in ts
    ensures KeepsTrackers(ts, NewTracker(ts, kind, name, UNCLAIMED_TIME))
  {
  }

  lemma DoneKeepsTrackers(ts: Trackers, name: string)
    ensures KeepsTrackers(ts, MarkDone(ts, TrackerKey(CompactionLease, name)))
  {
  }

  lemma KeepsBoth(ts: Trackers, us: Trackers, vs: Trackers)
    requires KeepsTrackers(ts, us) && KeepsTrackers(us, vs)
    ensures KeepsTrackers(ts, vs)
  {
  }

  lemma ReplacementKeepsTrackers(ts: Trackers, name: string, r: Replacement, next: Checkpoint)
    requires WaitingFree(ts, name, next) && TrackerKey(CleanupLease, r.cleanupId) !in ts
    ensures KeepsTrackers(ts, NewTracker(MarkDone(AddWaiting(ts, name, next),
                                                  TrackerKey(CompactionLease, r.compactionId)),
                                         CleanupLease, r.cleanupId, UNCLAIMED_TIME))
  {
    var t1 := AddWaiting(ts, name, next);
    var t2 := MarkDone(t1, TrackerKey(CompactionLease, r.compactionId));
    if !CoveredByCount(next, "es") { NewKeepsTrackers(ts, WaitingForExtension, name); }
    DoneKeepsTrackers(t1, r.compactionId);
    NewKeepsTrackers(t2, CleanupLease, r.cleanupId);
    KeepsBoth(ts, t1, t2);
    KeepsBoth(ts, t2, NewTracker(t2, CleanupLease, r.cleanupId, UNCLAIMED_TIME));
  }

  lemma ReplacementKeepsStored(start: World, w: World, c: IcebergCommit, r: Replacement, next: Checkpoint, v: World)
    requires AddReplacement(start, w, c, r, next) == Some(v)
    ensures KeepsStored(w, v)
  {
    var k := start.compactions[r.compactionId];
    var name := FullName(Descriptor(w.table, r.checkpointId, Some(k.checkpointIdToReplace)));
    ReplacementKeepsTrackers(w.trackers, name, r, next);
  }

  lemma ReplacedStays(start: World, w: World, v: World, s: Replacement, next: Checkpoint)
    requires Replaced(start, w, s, next) && KeepsStored(w, v)
    ensures Replaced(start, v, s, next)
  {
  }

  lemma {:induction false} SameTable(start: World, w: World, c: IcebergCommit, rs: seq<Replacement>, next: Checkpoint)
    requires AddReplacements(start, w, c, rs, next).Some?
    ensures AddReplacements(start, w, c, rs, next).value.table == w.table
  {
    if |rs| != 0 { SameTable(start, w, c, rs[..|rs| - 1], next); }
  }

  lemma LastReplaced(start: World, w: World, c: IcebergCommit, rs: seq<Replacement>, next: Checkpoint, i: nat, v: World)
    requires i < |rs| && w.table == start.table && AddReplacement(start, w, c, rs[|rs| - 1], next) == Some(v)
    requires i < |rs| - 1 ==> Replaced(start, w, rs[i], next)
    ensures Replaced(start, v, rs[i], next)
  {
    if i < |rs| - 1 {
      ReplacementKeepsStored(start, w, c, rs[|rs| - 1], next, v);
      ReplacedStays(start, w, v, rs[i], next);
    } else {
      ReplacedNow(start, w, c, rs[|rs| - 1], next, v);
    }
  }

  lemma {:induction false} AllReplaced(start: World, w: World, c: IcebergCommit, rs: seq<Replacement>,
                                       next: Checkpoint, i: nat)
    requires w.table == start.table && AddReplacements(start, w, c, rs, next).Some? && i < |rs|
    ensures Replaced(start, AddReplacements(start, w, c, rs, next).value, rs[i], next)
  {
    var m := |rs| - 1;
    if i < m {
      AllReplaced(start, w, c, rs[..m], next, i);
      assert rs[..m][i] == rs[i];
    }
    SameTable(start, w, c, rs[..m], next);
    LastReplaced(start, AddReplacements(start, w, c, rs[..m], next).value, c, rs, next, i,
                 AddReplacements(start, w, c, rs, next).value);
  }

  // --------------------------------------------------------- waiting for the index

  /** The latest checkpoint is covered, or waits to be. */
  predicate CoveredOrWaiting(w: World) {
    CoveredByCount(Current(w), "es") || IsOpen(w.trackers, TrackerKey(WaitingForExtension, CheckpointName(Current(w))))
  }

  lemma WaitingAdded(ts: Trackers, name: string, c: Checkpoint)
    ensures CoveredByCount(c, "es") || IsOpen(AddWaiting(ts, name, c), TrackerKey(WaitingForExtension, name))
  {
  }

  lemma {:induction false} ReplacementsKeepWaiting(start: World, w: World, c: IcebergCommit, rs: seq<Replacement>,
                                                   next: Checkpoint, name: string)
    requires AddReplacements(start, w, c, rs, next).Some?
    requires IsOpen(w.trackers, TrackerKey(WaitingForExtension, name))
    ensures IsOpen(AddReplacements(start, w, c, rs, next).value.trackers, TrackerKey(WaitingForExtension, name))
  {
    if |rs| != 0 {
      var m := |rs| - 1;
      ReplacementsKeepWaiting(start, w, c, rs[..m], next, name);
      ReplacementKeepsStored(start, AddReplacements(start, w, c, rs[..m], next).value, c, rs[m], next,
                             AddReplacements(start, w, c, rs, next).value);
    }
  }

  lemma IcebergWaits(w: World, c: IcebergCommit, id: string, newId: string, workId: string, rs: seq<Replacement>,
                     p: Latest, q: Latest)
    requires Inv(w) && PointerForward(p, w.pointers[Standard]) && PointerForward(q, w.pointers[EsWork])
    requires CommitIceberg(w, c, id, newId, workId, rs, p, q) != w
    ensures CoveredOrWaiting(CommitIceberg(w, c, id, newId, workId, rs, p, q))
  {
    var next := IcebergGuard(w, c, id, newId, workId, rs, p, q);
    var u := IcebergWrite(w, c, id, workId, PendingItem(w, w.pointers[EsWork]).value, next,
                          w.pointers[Standard], w.pointers[EsWork]);
    CloneIceberg(Current(w), newId, c, w.compactions);
    IcebergMoves(w, c, id, newId, workId, rs, p, q);
    WaitingAdded(w.trackers, CheckpointName(next), next);
    if !CoveredByCount(next, "es") { ReplacementsKeepWaiting(w, u, c, rs, next, CheckpointName(next)); }
  }

  lemma StandardWaits(w: World, names: seq<string>, read: Trackers, p: Latest, newId: string, compact: bool, q: Latest,
                      itemId: string)
    requires Inv(w) && PointerForward(p, w.pointers[Standard])
    requires UpdateStandard(w, names, read, p, newId, compact, q, itemId) != w
    ensures CoveredOrWaiting(UpdateStandard(w, names, read, p, newId, compact, q, itemId))
  {
    var next := StandardWrites(w, names, read, p, newId, compact, q, itemId);
    WaitingAdded(MarkAllDone(w.trackers, SpeedboatCheckpointed, names), CheckpointName(next), next);
    assert Current(StandardWrite(w, names, next, w.pointers[Standard])) == next;
  }

  lemma StepWaits(g: seq<World>, a: Action)
    requires History(g) && (a.IcebergAction? || a.StandardAction?) && Next(g, a) != g[|g| - 1]
    ensures CoveredOrWaiting(Next(g, a))
  {
    Now(g);
    match a {
      case IcebergAction(c, id, newId, workId, rs, i, j) =>
        IcebergIs(g, c, id, newId, workId, rs, i, j);
        ReadForward(g, i, Standard);
        ReadForward(g, j, EsWork);
        IcebergWaits(g[|g| - 1], c, id, newId, workId, rs, ReadAt(g, i, Standard).value, ReadAt(g, j, EsWork).value);
      case StandardAction(names, i, j, newId, compact, k, itemId) =>
        StandardIs(g, names, i, j, newId, compact, k, itemId);
        ReadForward(g, j, Standard);
        StandardWaits(g[|g| - 1], names, g[i].trackers, ReadAt(g, j, Standard).value, newId, compact,
                      ReadAt(g, k, CompactionWork).value, itemId);
    }
  }

  /** Whenever the latest checkpoint moves, the new one is covered by the index or waits to be. */
  lemma MovedIsWaiting(h: seq<World>, acts: seq<Action>, n: nat)
    requires IsRun(h, acts) && n < |acts| && (acts[n].IcebergAction? || acts[n].StandardAction?) && h[n + 1] != h[n]
    ensures CoveredOrWaiting(h[n + 1])
  {
    RunTake(h, acts, n);
    RunsAreSafe(h[..n + 1], acts[..n]);
    StepOf(h, acts, n);
    StepWaits(h[..n + 1], acts[n]);
  }

  // ----------------------------------------------------- the compactions of a landing

  lemma CommitReplaces(w: World, c: IcebergCommit, id: string, newId: string, workId: string, rs: seq<Replacement>,
                       p: Latest, q: Latest, i: nat)
    requires Inv(w) && PointerForward(p, w.pointers[Standard]) && PointerForward(q, w.pointers[EsWork])
    requires CommitIceberg(w, c, id, newId, workId, rs, p, q) != w && i < |rs|
    ensures var v := CommitIceberg(w, c, id, newId, workId, rs, p, q); Replaced(w, v, rs[i], Current(v))
  {
    var next := IcebergGuard(w, c, id, newId, workId, rs, p, q);
    var u := IcebergWrite(w, c, id, workId, PendingItem(w, w.pointers[EsWork]).value, next,
                          w.pointers[Standard], w.pointers[EsWork]);
    AllReplaced(w, u, c, rs, next, i);
    CloneIceberg(Current(w), newId, c, w.compactions);
    IcebergMoves(w, c, id, newId, workId, rs, p, q);
  }

  /** Every compaction that a landed Iceberg commit lists is over: the record of its checkpoint's replacement holds the
      new checkpoint, its lease is done, and exactly its files wait to be cleaned up. */
  lemma LandingReplaces(h: seq<World>, acts: seq<Action>, n: nat, i: nat)
    requires IsRun(h, acts) && n < |acts| && acts[n].IcebergAction? && h[n + 1] != h[n] && i < |acts[n].replacements|
    ensures Replaced(h[n], h[n + 1], acts[n].replacements[i], Current(h[n + 1]))
  {
    RunTake(h, acts, n);
    RunsAreSafe(h[..n + 1], acts[..n]);
    StepOf(h, acts, n);
    StepReplaces(h[..n + 1], acts[n], i);
  }

  lemma StepReplaces(g: seq<World>, a: Action, i: nat)
    requires History(g) && a.IcebergAction? && Next(g, a) != g[|g| - 1] && i < |a.replacements|
    ensures Replaced(g[|g| - 1], Next(g, a), a.replacements[i], Current(Next(g, a)))
  {
    IcebergIs(g, a.iceberg, a.commitId, a.newId, a.workId, a.replacements, a.standardAt, a.esWorkAt);
    Now(g);
    ReadForward(g, a.standardAt, Standard);
    ReadForward(g, a.esWorkAt, EsWork);
    CommitReplaces(g[|g| - 1], a.iceberg, a.commitId, a.newId, a.workId, a.replacements,
                   ReadAt(g, a.standardAt, Standard).value, ReadAt(g, a.esWorkAt, EsWork).value, i);
  }
}
