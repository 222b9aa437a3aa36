/** The store and the transactions that `query_runtime/src/dynamodb.rs` builds step by step: each
    commit collects conditional operations in a list and has them executed all or nothing.  Every
    commit method does exactly what the corresponding write of the protocol says. */
module MetadataStore {
  import opened Prelude
  import opened FileSets
  import opened Checkpoints
  import opened Descriptors
  import opened Protocol
  import opened Transactions

  /** The operations go through exactly when `ok`, and then lead to `v`. */
  ghost predicate Built(w: World, ops: seq<Op>, ok: bool, v: World) {
    Run(w, ops) == if ok then Some(v) else None
  }

  lemma BuiltStep(w: World, ops: seq<Op>, ok: bool, v: World, op: Op)
    requires Built(w, ops, ok, v)
    ensures Built(w, ops + [op], ok && Allowed(v, op), Perform(v, op))
  {
    RunAppend(w, ops, op);
  }

  lemma RunPair(w: World, a: Op, b: Op)
    ensures Built(w, [a, b], Allowed(w, a) && Allowed(Perform(w, a), b), Perform(Perform(w, a), b))
  {
    assert [a, b][..1] == [a] && [a][..0] == [];
    assert Run(w, [a]) == if Allowed(w, a) then Some(Perform(w, a)) else None;
  }

  lemma UpdatePair(a: Op, b: Op)
    requires IsCreate(a) && !Updatable(Target(a)) && !IsCreate(b) && Updatable(Target(b))
    ensures Updates([a, b], {Target(b)})
  {
    NoUpdates();
    CreateMore([], {}, a);
    UpdateMore([] + [a], {}, b);
    assert [] + [a] + [b] == [a, b] && {} + {Target(b)} == {Target(b)};
  }

  /** The operation that makes an uncovered checkpoint wait for its extension. */
  function WaitingOps(name: string, next: Checkpoint): seq<Op> {
    if CoveredByCount(next, "es") then [] else [CreateTracker(TrackerKey(WaitingForExtension, name), UNCLAIMED_TIME)]
  }

  lemma WaitingMore(ops: seq<Op>, updates: set<Record>, name: string, next: Checkpoint)
    requires Updates(ops, updates)
    ensures Updates(ops + WaitingOps(name, next), updates)
  {
    if CoveredByCount(next, "es") {
      assert ops + [] == ops;
    } else {
      CreateMore(ops, updates, CreateTracker(TrackerKey(WaitingForExtension, name), UNCLAIMED_TIME));
    }
  }

  lemma BuiltWaiting(w: World, ops: seq<Op>, ok: bool, v: World, name: string, next: Checkpoint)
    requires Built(w, ops, ok, v)
    ensures Built(w, ops + WaitingOps(name, next), ok && WaitingFree(v.trackers, name, next),
                  v.(trackers := AddWaiting(v.trackers, name, next)))
  {
    if CoveredByCount(next, "es") {
      assert ops + [] == ops;
    } else {
      BuiltStep(w, ops, ok, v, CreateTracker(TrackerKey(WaitingForExtension, name), UNCLAIMED_TIME));
    }
  }

  lemma MarkOneMore(ts: Trackers, kind: TrackerKind, names: seq<string>, i: nat)
    requires i < |names| && NoDup(names) && TrackerKey(kind, names[i]) in ts
    ensures var k := TrackerKey(kind, names[i]); var us := MarkAllDone(ts, kind, names[..i]);
            k in us && us[k] == ts[k] && MarkDone(us, k) == MarkAllDone(ts, kind, names[..i + 1])
  {
    assert forall n :: n in names[..i + 1] <==> n in names[..i] || n == names[i];
  }

  lemma ClaimOneMore(ts: Trackers, names: seq<string>, stamp: int, i: nat)
    requires i < |names| && NoDup(names) && TrackerKey(CleanupLease, names[i]) in ts
    ensures var k := TrackerKey(CleanupLease, names[i]); var us := ClaimAll(ts, names[..i], stamp);
            && k in us && us[k] == ts[k]
            && us[k := Tracker(ts[k].version + 1, stamp)] == ClaimAll(ts, names[..i + 1], stamp)
  {
    assert forall n :: n in names[..i + 1] <==> n in names[..i] || n == names[i];
  }

  /** A list of conditional claims has the effect of claiming all the names at once. */
  ghost predicate ClaimsBuilt(w: World, ops: seq<Op>, read: Trackers, names: seq<string>, stamp: int) {
    Run(w, ops) == if SameVersions(read, w.trackers, CleanupLease, names)
                   then Some(w.(trackers := ClaimAll(w.trackers, names, stamp))) else None
  }

  lemma ClaimBuilt(w: World, ops: seq<Op>, read: Trackers, names: seq<string>, stamp: int, i: nat)
    requires i < |names| && NoDup(names) && ClaimsBuilt(w, ops, read, names[..i], stamp)
    requires TrackerKey(CleanupLease, names[i]) in read
    ensures var k := TrackerKey(CleanupLease, names[i]);
            ClaimsBuilt(w, ops + [Claim(k, read[k].version, stamp)], read, names[..i + 1], stamp)
  {
    var k := TrackerKey(CleanupLease, names[i]);
    RunAppend(w, ops, Claim(k, read[k].version, stamp));
    SameVersionsMore(read, w.trackers, CleanupLease, names, i);
    if k in w.trackers { ClaimOneMore(w.trackers, names, stamp, i); }
  }

  /** The first `i` names are claimed, each once. */
  ghost predicate ClaimsNamed(ops: seq<Op>, names: seq<string>, i: nat) {
    && i <= |names| && WellBuilt(ops) && Created(ops) == {}
    && Updated(ops) == set n | n in names[..i] :: TrackerOf(TrackerKey(CleanupLease, n))
  }

  lemma ClaimNamed(ops: seq<Op>, names: seq<string>, i: nat, op: Op)
    requires ClaimsNamed(ops, names, i) && i < |names| && NoDup(names)
    requires op.Claim? && op.tracker == TrackerKey(CleanupLease, names[i])
    ensures ClaimsNamed(ops + [op], names, i + 1)
  {
    assert forall n :: n in names[..i + 1] <==> n in names[..i] || n == names[i];
    RecordsMore(ops, op);
    WellBuiltMore(ops, op);
  }

  /** The operations of `commit_speedboat`. */
  function SpeedboatOps(c: SpeedboatCommit, commitId: string, workId: string, item: WorkItem, read: Latest): seq<Op> {
    [CreateSpeedboat(commitId, c), CreateTracker(TrackerKey(SpeedboatCheckpointed, commitId), UNCLAIMED_TIME)]
    + [CreateWorkItem(workId, item)] + [BumpVersion(EsWork, read, workId)]
  }

  predicate SpeedboatAllowed(w: World, commitId: string, workId: string, read: Latest) {
    && commitId !in w.speedboats && TrackerKey(SpeedboatCheckpointed, commitId) !in w.trackers
    && workId !in w.workItems && Unchanged(w, EsWork, read)
  }

  lemma SpeedboatBuilt(w: World, c: SpeedboatCommit, commitId: string, workId: string, item: WorkItem, read: Latest)
    ensures Built(w, SpeedboatOps(c, commitId, workId, item, read), SpeedboatAllowed(w, commitId, workId, read),
                  SpeedboatWrite(w, c, commitId, workId, item, read))
  {
    var ops := [CreateSpeedboat(commitId, c),
                CreateTracker(TrackerKey(SpeedboatCheckpointed, commitId), UNCLAIMED_TIME)];
    var ok := Allowed(w, ops[0]) && Allowed(Perform(w, ops[0]), ops[1]);
    var v := Perform(Perform(w, ops[0]), ops[1]);
    RunPair(w, ops[0], ops[1]);
    BuiltStep(w, ops, ok, v, CreateWorkItem(workId, item));
    BuiltStep(w, ops + [CreateWorkItem(workId, item)], ok && workId !in v.workItems,
              Perform(v, CreateWorkItem(workId, item)),
              BumpVersion(EsWork, read, workId));
    SpeedboatPerformed(w, c, commitId, workId, item, read);
  }

  lemma SpeedboatPerformed(w: World, c: SpeedboatCommit, commitId: string, workId: string, item: WorkItem, read: Latest)
    ensures var v := Perform(Perform(w, CreateSpeedboat(commitId, c)),
                             CreateTracker(TrackerKey(SpeedboatCheckpointed, commitId), UNCLAIMED_TIME));
            && Perform(Perform(v, CreateWorkItem(workId, item)), BumpVersion(EsWork, read, workId))
               == SpeedboatWrite(w, c, commitId, workId, item, read)
            && v.workItems == w.workItems && v.pointers == w.pointers
  {
  }

  lemma SpeedboatWritten(w: World, c: SpeedboatCommit, commitId: string, workId: string, item: WorkItem,
                         merged: WorkItem, read: Latest)
    requires GeneratedId(commitId) && GeneratedId(workId) && |c.typeFiles| > 0
    requires PendingItem(w, read) == Some(item) && MergeSpeedboat(item, c.typeFiles) == Some(merged)
    ensures Protocol.CommitSpeedboat(w, c, commitId, workId, read) ==
            if SpeedboatAllowed(w, commitId, workId, read) then SpeedboatWrite(w, c, commitId, workId, merged, read)
            else w
    ensures SpeedboatAllowed(w, commitId, workId, read) ==> SpeedboatWrite(w, c, commitId, workId, merged, read) != w
  {
    assert commitId in SpeedboatWrite(w, c, commitId, workId, merged, read).speedboats;
  }

  /** The operations of `commit_speedboat` have four different records. */
  lemma FourRecords(ops: seq<Op>)
    requires |ops| == 4 && ops[0].CreateSpeedboat? && ops[1].CreateTracker? && ops[2].CreateWorkItem?
             && ops[3].BumpVersion?
    ensures WellBuilt(ops)
  {
    var creations := ops[..3];
    OnlyCreations(creations);
    assert PointerOf(ops[3].key) !in Created(creations);
    WellBuiltMore(creations, ops[3]);
    assert ops == creations + [ops[3]];
  }

  /** The list changes one pointer and the trackers of the names. */
  function Marks(key: PointerKey, names: seq<string>): set<Record> {
    {PointerOf(key)} + set n | n in names :: TrackerOf(TrackerKey(SpeedboatCheckpointed, n))
  }

  lemma FirstMark(key: PointerKey, op: Op)
    requires op.BumpVersion? && op.key == key
    ensures Updates([op], Marks(key, []))
  {
    OneUpdate(op);
    assert Marks(key, []) == {PointerOf(key)};
  }

  lemma MarkMore(ops: seq<Op>, key: PointerKey, names: seq<string>, i: nat, op: Op)
    requires i < |names| && NoDup(names) && Updates(ops, Marks(key, names[..i]))
    requires op.MarkDoneAt? && op.tracker == TrackerKey(SpeedboatCheckpointed, names[i])
    ensures Updates(ops + [op], Marks(key, names[..i + 1]))
  {
    assert forall n :: n in names[..i + 1] <==> n in names[..i] || n == names[i];
    assert Marks(key, names[..i + 1]) == Marks(key, names[..i]) + {Target(op)};
    UpdateMore(ops, Marks(key, names[..i]), op);
  }

  /** The pointer moves and the trackers are marked, exactly when both are as they were read. */
  ghost predicate MarksRun(w: World, ops: seq<Op>, key: PointerKey, read: Latest, id: string, trackers: Trackers,
                           names: seq<string>)
  {
    Built(w, ops, Unchanged(w, key, read) && SameVersions(trackers, w.trackers, SpeedboatCheckpointed, names),
          w.(pointers := Bump(w.pointers, key, read, id),
             trackers := MarkAllDone(w.trackers, SpeedboatCheckpointed, names)))
  }

  lemma FirstMarkRun(w: World, key: PointerKey, read: Latest, id: string, trackers: Trackers)
    ensures MarksRun(w, [BumpVersion(key, read, id)], key, read, id, trackers, [])
  {
    RunAppend(w, [], BumpVersion(key, read, id));
    assert [] + [BumpVersion(key, read, id)] == [BumpVersion(key, read, id)];
    NothingMarked(w.trackers, SpeedboatCheckpointed, 0);
  }

  lemma MarkRunMore(w: World, ops: seq<Op>, key: PointerKey, read: Latest, id: string, trackers: Trackers,
                    names: seq<string>, i: nat)
    requires i < |names| && NoDup(names) && MarksRun(w, ops, key, read, id, trackers, names[..i])
    requires TrackerKey(SpeedboatCheckpointed, names[i]) in trackers
    ensures var k := TrackerKey(SpeedboatCheckpointed, names[i]);
            MarksRun(w, ops + [MarkDoneAt(k, trackers[k].version)], key, read, id, trackers, names[..i + 1])
  {
    var k := TrackerKey(SpeedboatCheckpointed, names[i]);
    RunAppend(w, ops, MarkDoneAt(k, trackers[k].version));
    SameVersionsMore(trackers, w.trackers, SpeedboatCheckpointed, names, i);
    MarkKeepsKeys(w.trackers, SpeedboatCheckpointed, names[..i], k);
    if k in w.trackers { MarkOneMore(w.trackers, SpeedboatCheckpointed, names, i); }
  }

  lemma MarkKeepsKeys(ts: Trackers, kind: TrackerKind, names: seq<string>, k: TrackerKey)
    ensures k in MarkAllDone(ts, kind, names) <==> k in ts
  {
  }

  lemma NothingMarked(ts: Trackers, kind: TrackerKind, stamp: int)
    ensures MarkAllDone(ts, kind, []) == ts && ClaimAll(ts, [], stamp) == ts
  {
  }

  /** The lease that a replacement marks as done. */
  function LeaseOf(r: Replacement): Record { TrackerOf(TrackerKey(CompactionLease, r.compactionId)) }

  /** The list of `commit_iceberg` changes two pointers and the leases of the replacements. */
  function Leases(rs: seq<Replacement>): set<Record> {
    {PointerOf(Standard), PointerOf(EsWork)} + set r | r in rs :: LeaseOf(r)
  }

  lemma NoLeases()
    ensures Leases([]) == {PointerOf(Standard)} + {PointerOf(EsWork)}
  {
  }

  lemma LeaseMore(rs: seq<Replacement>, i: nat)
    requires i < |rs| && OnePerCompaction(rs)
    ensures LeaseOf(rs[i]) !in Leases(rs[..i]) && Leases(rs[..i + 1]) == Leases(rs[..i]) + {LeaseOf(rs[i])}
  {
    assert forall r :: r in rs[..i + 1] <==> r in rs[..i] || r == rs[i];
  }

  predicate OnePerCompaction(rs: seq<Replacement>) {
    forall i, j :: 0 <= i < j < |rs| ==> rs[i].compactionId != rs[j].compactionId
  }

  /** What `commit_checkpoint` writes when all its conditions hold. */
  function CheckpointWrite(w: World, key: PointerKey, names: seq<string>, next: Checkpoint, read: Latest): World {
    w.(checkpoints := w.checkpoints[CheckpointName(next) := next],
       trackers := AddWaiting(MarkAllDone(w.trackers, SpeedboatCheckpointed, names), CheckpointName(next), next),
       pointers := Bump(w.pointers, key, read, CheckpointName(next)))
  }

  predicate CheckpointAllowed(w: World, key: PointerKey, names: seq<string>, trackers: Trackers, next: Checkpoint,
                              read: Latest)
  {
    && Unchanged(w, key, read)
    && SameVersions(trackers, w.trackers, SpeedboatCheckpointed, names)
    && CheckpointName(next) !in w.checkpoints
    && WaitingFree(w.trackers, CheckpointName(next), next)
  }

  /** There are commits to apply, and they can be applied; whether the write then goes through is another matter. */
  predicate Applicable(w: World, names: seq<string>, read: Latest, newId: string) {
    && |names| > 0 && read.entityId in w.checkpoints && (forall i :: 0 <= i < |names| ==> names[i] in w.speedboats)
    && CloneAndApply(w.checkpoints[read.entityId], newId, CommitsNamed(w, names), [], [], w.compactions).Some?
  }

  /** For a covered checkpoint and no trackers only the pointer and the checkpoint are written. */
  lemma EsCheckpoint(w: World, next: Checkpoint, read: Latest)
    requires CoveredByCount(next, "es")
    ensures CheckpointWrite(w, Es, [], next, read) == EsWrite(w, next, read)
    ensures CheckpointAllowed(w, Es, [], map[], next, read)
            <==> Unchanged(w, Es, read) && CheckpointName(next) !in w.checkpoints
  {
    NothingMarked(w.trackers, SpeedboatCheckpointed, 0);
  }

  lemma SameVersionsMore(read: Trackers, ts: Trackers, kind: TrackerKind, names: seq<string>, i: nat)
    requires i < |names|
    ensures SameVersions(read, ts, kind, names[..i + 1]) <==>
            && SameVersions(read, ts, kind, names[..i])
            && (var k := TrackerKey(kind, names[i]); k in read && k in ts && ts[k].version == read[k].version)
  {
    assert names[..i + 1] == names[..i] + [names[i]];
  }

  class Store {
    var world: World

    constructor (w: World)
      ensures world == w
    {
      world := w;
    }

    /** Whether a transaction is accepted: no record twice, and every condition holds. */
    method Check(ops: seq<Op>) returns (ok: bool)
      ensures ok <==> Distinct(ops) && AllAllowed(world, ops)
    {
      var i := 0;
      while i < |ops|
        invariant i <= |ops|
        invariant forall j :: 0 <= j < i ==> Allowed(world, ops[j])
        invariant forall j, k :: 0 <= j < k < i ==> Target(ops[j]) != Target(ops[k])
      {
        if !Allowed(world, ops[i]) || exists j :: 0 <= j < i && Target(ops[j]) == Target(ops[i]) { return false; }
        i := i + 1;
      }
      ok := true;
    }

    /** `commit_conditional_transaction`: all conditions are checked before anything is written. */
    method Execute(ops: seq<Op>) returns (ok: bool)
      requires WellBuilt(ops)
      modifies this
      ensures ok <==> Distinct(ops) && AllAllowed(old(world), ops)
      ensures ok <==> Run(old(world), ops).Some?
      ensures world == if ok then Run(old(world), ops).value else old(world)
    {
      RunIsAtomic(world, ops);
      ok := Check(ops);
      if !ok { return; }
      var next := world;
      var i := 0;
      while i < |ops|
        invariant i <= |ops| && world == old(world) && Run(world, ops[..i]) == Some(next)
      {
        RunAppend(world, ops[..i], ops[i]);
        assert ops[..i + 1] == ops[..i] + [ops[i]];
        if Run(world, ops[..i + 1]).None? { RunStops(world, ops, i + 1); }
        next := Perform(next, ops[i]);
        i := i + 1;
      }
      assert ops[..i] == ops;
      world := next;
    }

    /** `commit_speedboat`, with the "es" work pointer as it was read. */
    method CommitSpeedboat(c: SpeedboatCommit, commitId: string, workId: string, read: Latest) returns (ok: bool)
      requires GeneratedId(commitId) && GeneratedId(workId) && |c.typeFiles| > 0
      modifies this
      ensures world == Protocol.CommitSpeedboat(old(world), c, commitId, workId, read)
      ensures ok <==> world != old(world)
    {
      var ops := [CreateSpeedboat(commitId, c),
                  CreateTracker(TrackerKey(SpeedboatCheckpointed, commitId), UNCLAIMED_TIME)];
      var item := PendingItem(world, read);
      if item.None? { return false; }
      var merged := MergeSpeedboat(item.value, c.typeFiles);
      if merged.None? { return false; }
      ops := ops + [CreateWorkItem(workId, merged.value)];
      ops := ops + [BumpVersion(EsWork, read, workId)];
      SpeedboatBuilt(world, c, commitId, workId, merged.value, read);
      SpeedboatWritten(world, c, commitId, workId, item.value, merged.value, read);
      FourRecords(ops);
      ok := Execute(ops);
    }

    /** `get_cleanup_work_items`, with the leases as they were queried. */
    method ClaimCleanupItems(names: seq<string>, read: Trackers, readTime: int, stamp: int) returns (ok: bool)
      requires NoDup(names) && Claimable(read, names, readTime)
      modifies this
      ensures world == Protocol.ClaimCleanupItems(old(world), names, read, readTime, stamp)
      ensures ok <==> SameVersions(read, old(world).trackers, CleanupLease, names)
    {
      ghost var w := world;
      NothingMarked(w.trackers, CleanupLease, stamp);
      var ops: seq<Op> := [];
      var i := 0;
      while i < |names|
        invariant i <= |names| && world == w && ClaimsBuilt(w, ops, read, names[..i], stamp)
        invariant ClaimsNamed(ops, names, i)
      {
        var k := TrackerKey(CleanupLease, names[i]);
        ClaimBuilt(w, ops, read, names, stamp, i);
        ClaimNamed(ops, names, i, Claim(k, read[k].version, stamp));
        ops := ops + [Claim(k, read[k].version, stamp)];
        i := i + 1;
      }
      assert names[..i] == names;
      ok := Execute(ops);
    }

    /** The first operations of `commit_checkpoint`: the pointer, then every tracker. */
    method MarkTrackers(key: PointerKey, read: Latest, names: seq<string>, trackers: Trackers, id: string)
      returns (ops: seq<Op>)
      requires NoDup(names) && Pending(trackers, SpeedboatCheckpointed, names)
      ensures MarksRun(world, ops, key, read, id, trackers, names) && Updates(ops, Marks(key, names))
    {
      ops := [BumpVersion(key, read, id)];
      FirstMark(key, ops[0]);
      FirstMarkRun(world, key, read, id, trackers);
      var i := 0;
      while i < |names|
        invariant i <= |names| && MarksRun(world, ops, key, read, id, trackers, names[..i])
        invariant Updates(ops, Marks(key, names[..i]))
      {
        var k := TrackerKey(SpeedboatCheckpointed, names[i]);
        MarkMore(ops, key, names, i, MarkDoneAt(k, trackers[k].version));
        MarkRunMore(world, ops, key, read, id, trackers, names, i);
        ops := ops + [MarkDoneAt(k, trackers[k].version)];
        i := i + 1;
      }
      assert names[..i] == names;
    }

    /** The operations that store a checkpoint and, unless it is covered, make it wait. */
    method StoreOps(before: seq<Op>, ghost updates: set<Record>, ghost ok: bool, ghost v: World, name: string,
                    next: Checkpoint)
      returns (ops: seq<Op>)
      requires Built(world, before, ok, v) && Updates(before, updates)
      ensures Updates(ops, updates)
      ensures Built(world, ops, ok && name !in v.checkpoints && WaitingFree(v.trackers, name, next),
                    v.(checkpoints := v.checkpoints[name := next], trackers := AddWaiting(v.trackers, name, next)))
    {
      BuiltStep(world, before, ok, v, CreateCheckpoint(name, next));
      CreateMore(before, updates, CreateCheckpoint(name, next));
      ops := before + [CreateCheckpoint(name, next)];
      WaitingMore(ops, updates, name, next);
      BuiltWaiting(world, ops, ok && name !in v.checkpoints, Perform(v, CreateCheckpoint(name, next)), name, next);
      ops := ops + WaitingOps(name, next);
    }

    /** The operations of `commit_checkpoint`, without a compaction work item. */
    method CheckpointOps(key: PointerKey, read: Latest, names: seq<string>, trackers: Trackers, next: Checkpoint)
      returns (ops: seq<Op>)
      requires NoDup(names) && Pending(trackers, SpeedboatCheckpointed, names)
      ensures Built(world, ops, CheckpointAllowed(world, key, names, trackers, next, read),
                    CheckpointWrite(world, key, names, next, read))
      ensures Updates(ops, Marks(key, names))
    {
      var name := CheckpointName(next);
      ops := MarkTrackers(key, read, names, trackers, name);
      ghost var ok :=
        Unchanged(world, key, read) && SameVersions(trackers, world.trackers, SpeedboatCheckpointed, names);
      ghost var v := world.(pointers := Bump(world.pointers, key, read, name),
                            trackers := MarkAllDone(world.trackers, SpeedboatCheckpointed, names));
      ops := StoreOps(ops, Marks(key, names), ok, v, name, next);
      MarkKeepsKeys(world.trackers, SpeedboatCheckpointed, names, TrackerKey(WaitingForExtension, name));
    }

    /** `commit_checkpoint`. */
    method CommitCheckpoint(key: PointerKey, read: Latest, names: seq<string>, trackers: Trackers, next: Checkpoint,
                            compaction: Option<(Latest, string)>) returns (ok: bool)
      requires NoDup(names) && Pending(trackers, SpeedboatCheckpointed, names) && key != CompactionWork
      modifies this
      ensures ok <==> && CheckpointAllowed(old(world), key, names, trackers, next, read)
                      && (compaction.Some? ==> && compaction.value.1 !in old(world).compactionItems
                                               && Unchanged(old(world), CompactionWork, compaction.value.0))
      ensures world == if !ok then old(world)
                       else var v := CheckpointWrite(old(world), key, names, next, read);
                            if compaction.None? then v
                            else CompactionItemWrite(v, compaction.value.1, next, compaction.value.0)
    {
      ghost var w := world;
      var ops := CheckpointOps(key, read, names, trackers, next);
      if compaction.Some? {
        ops := CompactionOps(ops, Marks(key, names), CheckpointAllowed(w, key, names, trackers, next, read),
                             CheckpointWrite(w, key, names, next, read), compaction.value.0, compaction.value.1, next);
      }
      UpdatesBuilt(
        ops, if compaction.Some? then Marks(key, names) + {PointerOf(CompactionWork)} else Marks(key, names));
      ok := Execute(ops);
    }

    method CompactionOps(before: seq<Op>, ghost updates: set<Record>, ghost ok: bool, ghost v: World, read: Latest,
                         itemId: string, next: Checkpoint) returns (ops: seq<Op>)
      requires Built(world, before, ok, v) && Updates(before, updates) && PointerOf(CompactionWork) !in updates
      ensures Built(world, ops, ok && itemId !in v.compactionItems && Unchanged(v, CompactionWork, read),
                    CompactionItemWrite(v, itemId, next, read))
      ensures Updates(ops, updates + {PointerOf(CompactionWork)})
    {
      var item := CreateCompactionItem(itemId, ItemFromCheckpoint(next));
      CreateMore(before, updates, item);
      UpdateMore(before + [item], updates, BumpVersion(CompactionWork, read, itemId));
      ops := before + [item];
      BuiltStep(world, before, ok, v, item);
      BuiltStep(world, ops, ok && Allowed(v, item), Perform(v, item), BumpVersion(CompactionWork, read, itemId));
      ops := ops + [BumpVersion(CompactionWork, read, itemId)];
    }

    /** The commits behind the trackers; fails where the source aborts. */
    method DescribeSpeedboats(names: seq<string>) returns (commits: Option<seq<SpeedboatCommit>>)
      ensures commits.Some? <==> forall i :: 0 <= i < |names| ==> names[i] in world.speedboats
      ensures commits.Some? ==> commits.value == CommitsNamed(world, names)
    {
      var found: seq<SpeedboatCommit> := [];
      var i := 0;
      while i < |names|
        invariant i <= |names| == |names| && |found| == i
        invariant forall j :: 0 <= j < i ==> names[j] in world.speedboats && found[j] == world.speedboats[names[j]]
      {
        if names[i] !in world.speedboats { return None; }
        found := found + [world.speedboats[names[i]]];
        i := i + 1;
      }
      commits := Some(found);
    }

    /** `update_standard_checkpoint`, with the trackers and pointers as they were read. */
    method UpdateStandard(names: seq<string>, trackers: Trackers, read: Latest, newId: string,
                          compact: bool, readCompaction: Latest, itemId: string) returns (workDone: bool)
      requires NoDup(names) && Pending(trackers, SpeedboatCheckpointed, names) && GeneratedId(newId)
               && GeneratedId(itemId)
      modifies this
      ensures world
              == Protocol.UpdateStandard(old(world), names, trackers, read, newId, compact, readCompaction, itemId)
      ensures workDone <==> Applicable(old(world), names, read, newId)
      ensures world != old(world) ==> workDone
    {
      workDone := false;
      if |names| == 0 || read.entityId !in world.checkpoints { return; }
      var commits := DescribeSpeedboats(names);
      if commits.None? { return; }
      var applied := CloneAndApply(world.checkpoints[read.entityId], newId, commits.value, [], [], world.compactions);
      if applied.None? { return; }
      var next := applied.value.0;
      var compaction :=
        if compact && readCompaction.entityId == NO_WORK_ITEM then Some((readCompaction, itemId)) else None;
      var _ := CommitCheckpoint(Standard, read, names, trackers, next, compaction);
      workDone := true;
    }

    /** `update_extension_checkpoint` for one waiting checkpoint, with what was read. */
    method UpdateEs(exts: seq<string>, readExts: Trackers, name: string, readWaiting: Trackers, newId: string,
                    read: Latest)
      requires Pending(readExts, ExtensionCheckpointed, exts) && Pending(readWaiting, WaitingForExtension, [name])
      requires GeneratedId(newId)
      modifies this
      ensures world == Protocol.UpdateEs(old(world), exts, readExts, name, readWaiting, newId, read)
    {
      if |exts| == 0 || name !in world.checkpoints
         || exists i :: 0 <= i < |exts| && exts[i] !in world.extensionCommits { return; }
      var next := Covered(world, world.checkpoints[name], exts, newId);
      if next.None? { return; }
      if CoveredByCount(next.value, "es") && Less(read.entityId, CheckpointName(next.value)) {
        EsCheckpoint(world, next.value, read);
        var _ := CommitCheckpoint(Es, read, [], map[], next.value, None);
      }
    }

    /** Steps 1 and 2 of `commit_iceberg`: the commit, the pointer and the new checkpoint. */
    method AdvanceOps(c: IcebergCommit, commitId: string, next: Checkpoint, read: Latest) returns (ops: seq<Op>)
      ensures Built(world, ops, && commitId !in world.icebergs && Unchanged(world, Standard, read)
                                && CheckpointName(next) !in world.checkpoints
                                && WaitingFree(world.trackers, CheckpointName(next), next),
                    world.(icebergs := world.icebergs[commitId := c],
                           pointers := Bump(world.pointers, Standard, read, CheckpointName(next)),
                           checkpoints := world.checkpoints[CheckpointName(next) := next],
                           trackers := AddWaiting(world.trackers, CheckpointName(next), next)))
      ensures Updates(ops, {PointerOf(Standard)})
    {
      var name := CheckpointName(next);
      var op1, op2 := CreateIceberg(commitId, c), BumpVersion(Standard, read, name);
      ghost var v :=
        world.(icebergs := world.icebergs[commitId := c], pointers := Bump(world.pointers, Standard, read, name));
      RunPair(world, op1, op2);
      UpdatePair(op1, op2);
      ops := StoreOps([op1, op2], {PointerOf(Standard)},
                      commitId !in world.icebergs && Unchanged(world, Standard, read), v, name, next);
    }

    /** Steps 3 and 4 of `commit_iceberg`: the work item and its pointer. */
    method WorkItemOps(before: seq<Op>, ghost updates: set<Record>, ghost ok: bool, ghost v: World, workId: string,
                       item: WorkItem, read: Latest) returns (ops: seq<Op>)
      requires Built(world, before, ok, v) && Updates(before, updates) && PointerOf(EsWork) !in updates
      ensures Built(world, ops, ok && workId !in v.workItems && Unchanged(v, EsWork, read),
                    v.(workItems := v.workItems[workId := item], pointers := Bump(v.pointers, EsWork, read, workId)))
      ensures Updates(ops, updates + {PointerOf(EsWork)})
    {
      CreateMore(before, updates, CreateWorkItem(workId, item));
      UpdateMore(before + [CreateWorkItem(workId, item)], updates, BumpVersion(EsWork, read, workId));
      BuiltStep(world, before, ok, v, CreateWorkItem(workId, item));
      ops := before + [CreateWorkItem(workId, item)];
      BuiltStep(world, ops, ok && workId !in v.workItems, Perform(v, CreateWorkItem(workId, item)),
                BumpVersion(EsWork, read, workId));
      ops := ops + [BumpVersion(EsWork, read, workId)];
    }

    /** Steps 1 to 4 of `commit_iceberg`. */
    method IcebergOps(c: IcebergCommit, commitId: string, workId: string, item: WorkItem, next: Checkpoint,
                      readStandard: Latest, readWork: Latest) returns (ops: seq<Op>)
      ensures Built(world, ops, IcebergAllowed(world, commitId, workId, next, readStandard, readWork),
                    IcebergWrite(world, c, commitId, workId, item, next, readStandard, readWork))
      ensures Updates(ops, Leases([]))
    {
      ghost var name := CheckpointName(next);
      ops := AdvanceOps(c, commitId, next, readStandard);
      ghost var ok := && commitId !in world.icebergs && Unchanged(world, Standard, readStandard)
                      && name !in world.checkpoints && WaitingFree(world.trackers, name, next);
      ghost var v := world.(icebergs := world.icebergs[commitId := c],
                            pointers := Bump(world.pointers, Standard, readStandard, name),
                            checkpoints := world.checkpoints[name := next],
                            trackers := AddWaiting(world.trackers, name, next));
      ops := WorkItemOps(ops, {PointerOf(Standard)}, ok, v, workId, MergeIceberg(item, c), readWork);
      NoLeases();
    }

    /** Step 5 of `commit_iceberg` for one compaction. */
    method ReplacementOps(before: seq<Op>, ghost updates: set<Record>, ghost may: bool, ghost u: World, name: string,
                          r: Replacement, k: CompactionCommit, next: Checkpoint) returns (ops: seq<Op>)
      requires Built(world, before, may, u) && Updates(before, updates) && LeaseOf(r) !in updates
      ensures Built(world, ops, may && ReplacementAllowed(u, name, r, next), ReplacementWrite(u, name, r, k, next))
      ensures Updates(ops, updates + {LeaseOf(r)})
    {
      ops := StoreOps(before, updates, may, u, name, next);
      ghost var ok := may && name !in u.checkpoints && WaitingFree(u.trackers, name, next);
      ghost var v := u.(checkpoints := u.checkpoints[name := next], trackers := AddWaiting(u.trackers, name, next));
      ops := CleanupOps(ops, updates, ok, v, r, k);
      assert TrackerKey(CleanupLease, r.cleanupId) in v.trackers
        <==> TrackerKey(CleanupLease, r.cleanupId) in u.trackers;
    }

    /** Steps 5c and 5d of `commit_iceberg`. */
    method CleanupOps(before: seq<Op>, ghost updates: set<Record>, ghost ok: bool, ghost v: World, r: Replacement,
                      k: CompactionCommit) returns (ops: seq<Op>)
      requires Built(world, before, ok, v) && Updates(before, updates) && LeaseOf(r) !in updates
      ensures Updates(ops, updates + {LeaseOf(r)})
      ensures Built(world, ops,
                    ok && r.cleanupId !in v.cleanupItems && TrackerKey(CleanupLease, r.cleanupId) !in v.trackers,
                    v.(cleanupItems := v.cleanupItems[r.cleanupId := k.removedSpeedboatFiles + k.removedDeleteFiles],
                       trackers := NewTracker(MarkDone(v.trackers, TrackerKey(CompactionLease, r.compactionId)),
                                              CleanupLease, r.cleanupId, UNCLAIMED_TIME)))
    {
      var op1 := MarkDoneAny(TrackerKey(CompactionLease, r.compactionId));
      var op2 := CreateCleanupItem(r.cleanupId, k.removedSpeedboatFiles + k.removedDeleteFiles);
      var op3 := CreateTracker(TrackerKey(CleanupLease, r.cleanupId), UNCLAIMED_TIME);
      UpdateMore(before, updates, op1);
      CreateMore(before + [op1], updates + {LeaseOf(r)}, op2);
      CreateMore(before + [op1] + [op2], updates + {LeaseOf(r)}, op3);
      BuiltStep(world, before, ok, v, op1);
      ops := before + [op1];
      ghost var v1 := Perform(v, op1);
      BuiltStep(world, ops, ok, v1, op2);
      ops := ops + [op2];
      BuiltStep(world, ops, ok && r.cleanupId !in v.cleanupItems, Perform(v1, op2), op3);
      ops := ops + [op3];
    }

    /** The transaction of `commit_iceberg`. */
    method ExecuteIceberg(c: IcebergCommit, commitId: string, workId: string, item: WorkItem, rs: seq<Replacement>,
                          next: Checkpoint, readStandard: Latest, readWork: Latest) returns (ok: bool)
      requires OnePerCompaction(rs)
      requires forall i :: 0 <= i < |rs| ==> GeneratedId(rs[i].checkpointId) && GeneratedId(rs[i].cleanupId)
      modifies this
      ensures ok <==> IcebergWritten(old(world), c, commitId, workId, item, rs, next, readStandard, readWork).Some?
      ensures ok ==>
                Some(world) == IcebergWritten(old(world), c, commitId, workId, item, rs, next, readStandard, readWork)
      ensures !ok ==> world == old(world)
    {
      var ops := IcebergOps(c, commitId, workId, item, next, readStandard, readWork);
      var all := AllReplacementOps(ops, IcebergAllowed(world, commitId, workId, next, readStandard, readWork),
                                   IcebergWrite(world, c, commitId, workId, item, next, readStandard, readWork),
                                   c, rs, next);
      if all.None? { return false; }
      UpdatesBuilt(all.value, Leases(rs));
      ok := Execute(all.value);
    }

    /** `commit_iceberg`, with the pointers as they were read and the ids generated along the way. */
    method CommitIceberg(c: IcebergCommit, commitId: string, newId: string, workId: string, rs: seq<Replacement>,
                         readStandard: Latest, readWork: Latest) returns (ok: bool)
      requires GeneratedId(commitId) && GeneratedId(newId) && GeneratedId(workId) && UniquePaths(c.metadata.files)
      requires ReplacesAll(c, rs)
      requires forall i :: 0 <= i < |rs| ==> GeneratedId(rs[i].checkpointId) && GeneratedId(rs[i].cleanupId)
      modifies this
      ensures world == Protocol.CommitIceberg(old(world), c, commitId, newId, workId, rs, readStandard, readWork)
      ensures ok <==> world != old(world)
    {
      ok := false;
      var item := PendingItem(world, readWork);
      if item.None? || readStandard.entityId !in world.checkpoints { return; }
      var applied := CloneAndApply(world.checkpoints[readStandard.entityId], newId, [], [c], [], world.compactions);
      if applied.None? { return; }
      WrittenChanges(world, c, commitId, workId, item.value, rs, applied.value.0, readStandard, readWork);
      ok := ExecuteIceberg(c, commitId, workId, item.value, rs, applied.value.0, readStandard, readWork);
    }

    /** The loop of step 5; `None` where the source aborts. */
    method AllReplacementOps(before: seq<Op>, ghost may: bool, ghost u: World, c: IcebergCommit, rs: seq<Replacement>,
                             next: Checkpoint)
      returns (ops: Option<seq<Op>>)
      requires Built(world, before, may, u) && u.table == world.table
      requires Updates(before, Leases([])) && OnePerCompaction(rs)
      requires forall i :: 0 <= i < |rs| ==> GeneratedId(rs[i].checkpointId) && GeneratedId(rs[i].cleanupId)
      ensures ops.Some? ==> Updates(ops.value, Leases(rs))
      ensures ops.None? ==> AddReplacements(world, u, c, rs, next).None?
      ensures ops.Some? ==> ReplacementsBuilt(world, ops.value, may, u, c, rs, next)
    {
      var built := before;
      var i := 0;
      while i < |rs|
        invariant i <= |rs| && Updates(built, Leases(rs[..i]))
        invariant ReplacementsBuilt(world, built, may, u, c, rs[..i], next)
      {
        var more := NextReplacement(built, may, u, c, rs, i, next);
        if more.None? { return None; }
        built := more.value;
        i := i + 1;
      }
      assert rs[..i] == rs;
      ops := Some(built);
    }

    /** The operations for the first `i + 1` compactions, from those for the first `i`. */
    method NextReplacement(built: seq<Op>, ghost may: bool, ghost u: World, c: IcebergCommit, rs: seq<Replacement>,
                           i: nat, next: Checkpoint) returns (more: Option<seq<Op>>)
      requires i < |rs| && u.table == world.table && OnePerCompaction(rs)
      requires GeneratedId(rs[i].checkpointId) && GeneratedId(rs[i].cleanupId)
      requires Updates(built, Leases(rs[..i])) && ReplacementsBuilt(world, built, may, u, c, rs[..i], next)
      ensures more.None? ==> AddReplacements(world, u, c, rs, next).None?
      ensures more.Some? ==> Updates(more.value, Leases(rs[..i + 1]))
      ensures more.Some? ==> ReplacementsBuilt(world, more.value, may, u, c, rs[..i + 1], next)
    {
      LeaseMore(rs, i);
      ghost var done := AddReplacements(world, u, c, rs[..i], next);
      ghost var v := if done.Some? then done.value else u;
      ReplacementsTable(world, u, c, rs[..i], next);
      more := OneReplacement(built, Leases(rs[..i]), may && done.Some?, v, c, rs[i], next);
      if more.None? {
        ReplacementMissing(world, u, v, c, rs, next, i);
        ReplacementsStop(world, u, c, rs, next, i + 1);
      } else {
        ReplacementBuilt(world, more.value, may, u, v, c, rs, next, i);
      }
    }

    /** One round of that loop. */
    method OneReplacement(before: seq<Op>, ghost updates: set<Record>, ghost may: bool, ghost u: World,
                          c: IcebergCommit, r: Replacement, next: Checkpoint) returns (ops: Option<seq<Op>>)
      requires Built(world, before, may, u) && u.table == world.table && Updates(before, updates)
               && LeaseOf(r) !in updates
      requires GeneratedId(r.checkpointId) && GeneratedId(r.cleanupId)
      ensures ops.Some? ==> Updates(ops.value, updates + {LeaseOf(r)})
      ensures ops.None? ==> AddReplacement(world, u, c, r, next).None?
      ensures ops.Some? ==> Run(world, ops.value) == if may then AddReplacement(world, u, c, r, next) else None
    {
      if r.compactionId !in world.compactions { return None; }
      var k := world.compactions[r.compactionId];
      if !ReplacementApplies(world, k, c) { return None; }
      var name := FullName(Descriptor(world.table, r.checkpointId, Some(k.checkpointIdToReplace)));
      var built := ReplacementOps(before, updates, may, u, name, r, k, next);
      ops := Some(built);
    }
  }

  /** The conditions of steps 1 to 4 of `commit_iceberg`. */
  predicate IcebergAllowed(w: World, commitId: string, workId: string, next: Checkpoint, readStandard: Latest,
                           readWork: Latest)
  {
    && commitId !in w.icebergs && workId !in w.workItems && CheckpointName(next) !in w.checkpoints
    && WaitingFree(w.trackers, CheckpointName(next), next)
    && Unchanged(w, Standard, readStandard) && Unchanged(w, EsWork, readWork)
  }

  /** What the transaction of `commit_iceberg` leads to. */
  function IcebergWritten(w: World, c: IcebergCommit, commitId: string, workId: string, item: WorkItem,
                          rs: seq<Replacement>, next: Checkpoint, readStandard: Latest, readWork: Latest): Option<World>
  {
    if IcebergAllowed(w, commitId, workId, next, readStandard, readWork) then
      AddReplacements(w, IcebergWrite(w, c, commitId, workId, item, next, readStandard, readWork), c, rs, next)
    else None
  }

  lemma WrittenChanges(w: World, c: IcebergCommit, commitId: string, workId: string, item: WorkItem,
                       rs: seq<Replacement>, next: Checkpoint, readStandard: Latest, readWork: Latest)
    ensures IcebergWritten(w, c, commitId, workId, item, rs, next, readStandard, readWork) != Some(w)
  {
    ReplacementsTable(w, IcebergWrite(w, c, commitId, workId, item, next, readStandard, readWork), c, rs, next);
  }

  /** The conditions of step 5 for one compaction. */
  predicate ReplacementAllowed(w: World, name: string, r: Replacement, next: Checkpoint) {
    && name !in w.checkpoints && WaitingFree(w.trackers, name, next)
    && r.cleanupId !in w.cleanupItems && TrackerKey(CleanupLease, r.cleanupId) !in w.trackers
  }

  /** The list leads to the store with the replacements, if its first part goes through at all. */
  ghost predicate ReplacementsBuilt(w: World, ops: seq<Op>, may: bool, u: World, c: IcebergCommit, rs: seq<Replacement>,
                                    next: Checkpoint)
  {
    Run(w, ops) == if may then AddReplacements(w, u, c, rs, next) else None
  }

  lemma ReplacementStep(w: World, u: World, c: IcebergCommit, rs: seq<Replacement>, next: Checkpoint, i: nat)
    requires i < |rs|
    ensures AddReplacements(w, u, c, rs[..i + 1], next) ==
            match AddReplacements(w, u, c, rs[..i], next)
            case None => None
            case Some(v) => AddReplacement(w, v, c, rs[i], next)
  {
    assert rs[..i + 1][..i] == rs[..i];
  }

  lemma ReplacementMissing(w: World, u: World, v: World, c: IcebergCommit, rs: seq<Replacement>, next: Checkpoint,
                           i: nat)
    requires i < |rs| && AddReplacement(w, v, c, rs[i], next).None?
    requires var done := AddReplacements(w, u, c, rs[..i], next); done.Some? ==> v == done.value
    ensures AddReplacements(w, u, c, rs[..i + 1], next).None?
  {
    ReplacementStep(w, u, c, rs, next, i);
  }

  lemma ReplacementBuilt(w: World, ops: seq<Op>, may: bool, u: World, v: World, c: IcebergCommit, rs: seq<Replacement>,
                         next: Checkpoint, i: nat)
    requires i < |rs|
    requires var done := AddReplacements(w, u, c, rs[..i], next);
             && (done.Some? ==> v == done.value)
             && Run(w, ops) == if may && done.Some? then AddReplacement(w, v, c, rs[i], next) else None
    ensures ReplacementsBuilt(w, ops, may, u, c, rs[..i + 1], next)
  {
    ReplacementStep(w, u, c, rs, next, i);
  }

  lemma {:induction false} ReplacementsTable(start: World, w: World, c: IcebergCommit, rs: seq<Replacement>,
                                             next: Checkpoint)
    ensures var u := AddReplacements(start, w, c, rs, next);
            u.Some? ==> u.value.table == w.table && u.value.icebergs == w.icebergs
  {
    if |rs| != 0 { ReplacementsTable(start, w, c, rs[..|rs| - 1], next); }
  }

  lemma {:induction false} ReplacementsStop(start: World, w: World, c: IcebergCommit, rs: seq<Replacement>,
                                            next: Checkpoint, i: nat)
    requires i <= |rs| && AddReplacements(start, w, c, rs[..i], next).None?
    ensures AddReplacements(start, w, c, rs, next).None?
    decreases |rs|
  {
    if i == |rs| {
      assert rs[..i] == rs;
    } else {
      assert rs[..|rs| - 1][..i] == rs[..i];
      ReplacementsStop(start, w, c, rs[..|rs| - 1], next, i);
    }
  }

  lemma {:induction false} RunStops(w: World, ops: seq<Op>, i: nat)
    requires i <= |ops| && Run(w, ops[..i]).None?
    ensures Run(w, ops).None?
    decreases |ops|
  {
    if i == |ops| {
      assert ops[..i] == ops;
    } else {
      assert ops[..|ops| - 1][..i] == ops[..i];
      RunStops(w, ops[..|ops| - 1], i);
    }
  }
}
