/** Runs written out action by action, in which every action reads the present world and uses ids longer than all
    before it, so that its conditions hold. */
module RunSteps {
  import opened Prelude
  import opened FileSets
  import opened Checkpoints
  import opened Descriptors
  import opened Protocol
  import opened ProtocolSafety
  import opened ProtocolRuns
  import opened ExactlyOnce

  // ------------------------------------------------------------------- a run

  /** The worlds that a list of actions leads through. */
  function WorldsOf(start: World, acts: seq<Action>): (h: seq<World>)
    ensures |h| == |acts| + 1
    decreases |acts|
  {
    if |acts| == 0 then [start]
    else
      var h := WorldsOf(start, acts[..|acts| - 1]);
      h + [Next(h, acts[|acts| - 1])]
  }

  lemma {:induction false} WorldsPrefix(start: World, acts: seq<Action>, n: nat)
    requires n <= |acts|
    ensures WorldsOf(start, acts[..n]) == WorldsOf(start, acts)[..n + 1]
    decreases |acts|
  {
    if n == |acts| {
      assert acts[..n] == acts;
    } else {
      var m := |acts| - 1;
      WorldsPrefix(start, acts[..m], n);
      WorldsMore(start, acts);
      assert acts[..m][..n] == acts[..n];
      TakeTake(WorldsOf(start, acts), n + 1, m + 1);
    }
  }

  lemma WorldsMore(start: World, acts: seq<Action>)
    requires |acts| > 0
    ensures WorldsOf(start, acts)[..|acts|] == WorldsOf(start, acts[..|acts| - 1])
  {
  }

  lemma TakeTake<T>(s: seq<T>, i: nat, j: nat)
    requires i <= j <= |s|
    ensures s[..j][..i] == s[..i]
  {
  }

  lemma WorldsStep(start: World, acts: seq<Action>, i: nat)
    requires i < |acts|
    ensures StepsTo(WorldsOf(start, acts), acts, i)
  {
    WorldsPrefix(start, acts, i);
    WorldsPrefix(start, acts, i + 1);
    assert acts[..i + 1][..i] == acts[..i];
    assert WorldsOf(start, acts)[..i + 2][i + 1] == WorldsOf(start, acts)[i + 1];
  }

  lemma WorldsStart(start: World, acts: seq<Action>)
    ensures WorldsOf(start, acts)[0] == start
  {
    WorldsPrefix(start, acts, 0);
    assert acts[..0] == [];
    assert WorldsOf(start, acts)[..1][0] == WorldsOf(start, acts)[0];
  }

  lemma WorldsRun(table: string, id: string, now: int, acts: seq<Action>)
    requires GeneratedId(id) && ColonFree(table)
    ensures IsRun(WorldsOf(Init(table, id, now), acts), acts)
  {
    var start := Init(table, id, now);
    WorldsStart(start, acts);
    var h := WorldsOf(start, acts);
    forall i | 0 <= i < |h|
      ensures Reached(h, acts, i)
    {
      if i > 0 { WorldsStep(start, acts, i - 1); }
    }
  }

  // ---------------------------------------------------------------- new ids

  /** An id of the given length. */
  function Digits(n: nat): string { seq(n, _ => '1') }

  lemma DigitsGenerated(n: nat)
    requires n > 0
    ensures GeneratedId(Digits(n)) && |Digits(n)| == n && ColonFree(Digits(n))
  {
  }

  function NameOf(table: string, id: string): string { FullName(Descriptor(table, id, None)) }

  function ReplacementName(table: string, id: string, replaced: string): string {
    FullName(Descriptor(table, id, Some(replaced)))
  }

  predicate Short(s: string, n: nat) { |s| <= n }

  ghost predicate KeysBelow<V>(m: map<string, V>, n: nat) { forall k :: k in m ==> Short(k, n) }

  ghost predicate TrackersBelow(ts: Trackers, n: nat) { forall k :: k in ts ==> Short(k.name, n) }

  /** The keys of all records are at most this long. */
  ghost predicate Below(w: World, n: nat) {
    && KeysBelow(w.checkpoints, n) && KeysBelow(w.speedboats, n) && KeysBelow(w.icebergs, n)
    && KeysBelow(w.workItems, n) && KeysBelow(w.compactionItems, n) && KeysBelow(w.cleanupItems, n)
    && TrackersBelow(w.trackers, n)
  }

  lemma BelowMore(w: World, n: nat, m: nat)
    requires Below(w, n) && n <= m
    ensures Below(w, m)
  {
  }

  lemma KeyBelow<V>(m: map<string, V>, n: nat, k: string, v: V)
    requires KeysBelow(m, n) && |k| <= n
    ensures KeysBelow(m[k := v], n)
  {
  }

  lemma NewKey<V>(m: map<string, V>, n: nat, k: string)
    requires KeysBelow(m, n) && |k| > n
    ensures k !in m
  {
    assert !Short(k, n);
  }

  lemma TrackerBelow(ts: Trackers, n: nat, k: TrackerKey, t: Tracker)
    requires TrackersBelow(ts, n) && |k.name| <= n
    ensures TrackersBelow(ts[k := t], n)
  {
  }

  lemma WaitingBelow(ts: Trackers, n: nat, name: string, c: Checkpoint)
    requires TrackersBelow(ts, n) && |name| <= n
    ensures TrackersBelow(AddWaiting(ts, name, c), n)
  {
    if !CoveredByCount(c, "es") {
      TrackerBelow(ts, n, TrackerKey(WaitingForExtension, name), Tracker(0, UNCLAIMED_TIME));
    }
  }

  lemma MarkedBelow(ts: Trackers, n: nat, kind: TrackerKind, names: seq<string>)
    requires TrackersBelow(ts, n)
    ensures TrackersBelow(MarkAllDone(ts, kind, names), n)
  {
  }

  lemma NewTrackerKey(ts: Trackers, n: nat, kind: TrackerKind, name: string)
    requires TrackersBelow(ts, n) && |name| > n
    ensures TrackerKey(kind, name) !in ts
  {
    assert TrackerKey(kind, name).name == name && !Short(name, n);
  }

  /** What every step below starts from and leads to. */
  ghost predicate Good(w: World, n: nat) { Inv(w) && CompactionWork in w.pointers && Below(w, n) }

  // ------------------------------------------------------------- the steps

  lemma {:induction false} MergeDefined(item: WorkItem, ts: seq<TableInfo>)
    requires forall i :: 0 <= i < |ts| && IsData(ts[i]) ==> ts[i].schema.Some?
    ensures MergeSpeedboat(item, ts).Some?
  {
    if |ts| != 0 { MergeDefined(item, ts[..|ts| - 1]); }
  }

  /** What a speedboat commit leaves behind. */
  ghost predicate Stored(w: World, v: World, c: SpeedboatCommit, id: string) {
    && Below(v, |id|) && Current(v) == Current(w) && v.compactions == w.compactions && v.table == w.table
    && CompactionWork in v.pointers && Describe(v, CompactionWork) == Describe(w, CompactionWork)
    && id in v.speedboats && v.speedboats[id] == c && Pending(v.trackers, SpeedboatCheckpointed, [id])
  }

  lemma SpeedboatGoes(w: World, n: nat, c: SpeedboatCommit, id: string) returns (item: WorkItem)
    requires Good(w, n) && GeneratedId(id) && |id| > n && |c.typeFiles| > 0
    requires forall i :: 0 <= i < |c.typeFiles| && IsData(c.typeFiles[i]) ==> c.typeFiles[i].schema.Some?
    ensures CommitSpeedboat(w, c, id, id, w.pointers[EsWork]) == SpeedboatWrite(w, c, id, id, item, w.pointers[EsWork])
  {
    var pending := PendingItem(w, w.pointers[EsWork]);
    MergeDefined(pending.value, c.typeFiles);
    item := MergeSpeedboat(pending.value, c.typeFiles).value;
    NewTrackerKey(w.trackers, n, SpeedboatCheckpointed, id);
    NewKey(w.speedboats, n, id);
    NewKey(w.workItems, n, id);
  }

  lemma SpeedboatWriteStores(w: World, n: nat, c: SpeedboatCommit, id: string, item: WorkItem, read: Latest)
    requires Below(w, n) && CompactionWork in w.pointers && |id| > n
    ensures Stored(w, SpeedboatWrite(w, c, id, id, item, read), c, id)
  {
    BelowMore(w, n, |id|);
    KeyBelow(w.speedboats, |id|, id, c);
    KeyBelow(w.workItems, |id|, id, item);
    TrackerBelow(w.trackers, |id|, TrackerKey(SpeedboatCheckpointed, id), Tracker(0, UNCLAIMED_TIME));
  }

  /** A speedboat commit with new ids is stored, and waits for its checkpoint. */
  lemma SpeedboatStores(w: World, n: nat, c: SpeedboatCommit, id: string)
    requires Good(w, n) && GeneratedId(id) && |id| > n && |c.typeFiles| > 0
    requires forall i :: 0 <= i < |c.typeFiles| && IsData(c.typeFiles[i]) ==> c.typeFiles[i].schema.Some?
    ensures Stored(w, CommitSpeedboat(w, c, id, id, w.pointers[EsWork]), c, id)
  {
    var item := SpeedboatGoes(w, n, c, id);
    SpeedboatWriteStores(w, n, c, id, item, w.pointers[EsWork]);
  }

  /** What taking the compaction item leaves behind. */
  ghost predicate Taken(w: World, v: World, n: nat) {
    && Below(v, n) && Current(v) == Current(w) && v.compactions == w.compactions && v.table == w.table
    && CompactionWork in v.pointers && v.pointers[CompactionWork].entityId == NO_WORK_ITEM
  }

  lemma TakeStores(w: World, n: nat)
    requires Below(w, n) && CompactionWork in w.pointers && w.pointers[CompactionWork].entityId != NO_WORK_ITEM
    requires TrackerKey(CompactionLease, w.pointers[CompactionWork].entityId) !in w.trackers
    requires |w.pointers[CompactionWork].entityId| <= n
    ensures Taken(w, TakeCompactionItem(w, w.pointers[CompactionWork]), n)
  {
    TrackerBelow(w.trackers, n, TrackerKey(CompactionLease, w.pointers[CompactionWork].entityId), Tracker(0, w.now));
  }

  /** What announcing a compaction leaves behind. */
  ghost predicate Recorded(w: World, v: World, n: nat, k: CompactionCommit) {
    Below(v, n) && Current(v) == Current(w) && v.compactions == w.compactions[k.compactionId := k] && v.table == w.table
  }

  lemma RecordStores(w: World, n: nat, k: CompactionCommit)
    requires Below(w, n) && |k.compactionId| > 0 && k.compactionId !in w.compactions
    ensures Recorded(w, RecordCompaction(w, k), n, k)
  {
  }

  // -------------------------------------------------------- a new checkpoint

  lemma NameLength(table: string, id: string)
    ensures |NameOf(table, id)| == |table| + 1 + |id|
  {
  }

  /** What a checkpoint update with a compaction item leaves behind. */
  ghost predicate Checkpointed(w: World, v: World, n: nat, next: Checkpoint, itemId: string) {
    && Below(v, n) && Current(v) == next && v.compactions == w.compactions && v.table == w.table
    && v.speedboats == w.speedboats
    && CheckpointName(next) in v.checkpoints && v.checkpoints[CheckpointName(next)] == next
    && itemId in v.compactionItems && TrackerKey(CompactionLease, itemId) !in v.trackers
    && CompactionWork in v.pointers && v.pointers[CompactionWork].entityId == itemId
  }

  lemma StandardTrackers(ts: Trackers, n: nat, id: string, next: Checkpoint, itemId: string)
    requires TrackersBelow(ts, n) && n < |itemId| < |CheckpointName(next)|
    ensures var us := AddWaiting(MarkAllDone(ts, SpeedboatCheckpointed, [id]), CheckpointName(next), next);
            TrackersBelow(us, |CheckpointName(next)|) && TrackerKey(CompactionLease, itemId) !in us
  {
    NewTrackerKey(ts, n, CompactionLease, itemId);
    MarkedBelow(ts, n, SpeedboatCheckpointed, [id]);
    WaitingBelow(MarkAllDone(ts, SpeedboatCheckpointed, [id]), |CheckpointName(next)|, CheckpointName(next), next);
  }

  lemma StandardWriteStores(w: World, n: nat, id: string, next: Checkpoint, itemId: string, p: Latest, q: Latest)
    requires Below(w, n) && n < |itemId| < |CheckpointName(next)|
    ensures Checkpointed(w, CompactionItemWrite(StandardWrite(w, [id], next, p), itemId, next, q),
                         |CheckpointName(next)|, next, itemId)
  {
    var m := |CheckpointName(next)|;
    BelowMore(w, n, m);
    StandardTrackers(w.trackers, n, id, next, itemId);
    KeyBelow(w.checkpoints, m, CheckpointName(next), next);
    KeyBelow(w.compactionItems, m, itemId, ItemFromCheckpoint(next));
  }

  lemma CloneOne(c: Checkpoint, newId: string, s: SpeedboatCommit, lookup: Compactions)
    requires c.extensions == map[] && ApplySpeedboat(c.(id := newId), s, lookup).Some?
    ensures CloneAndApply(c, newId, [s], [], [], lookup).Some?
    ensures CloneAndApply(c, newId, [s], [], [], lookup).value.0 == ApplySpeedboat(c.(id := newId), s, lookup).value
  {
    assert RetainCurrent(c.(id := newId)) == c.(id := newId);
    assert [s][..0] == [];
    assert ApplySpeedboats(c.(id := newId), [s], lookup) == ApplySpeedboat(c.(id := newId), s, lookup);
  }

  lemma NextName(w: World, newId: string, s: SpeedboatCommit)
    requires Inv(w) && GeneratedId(newId) && ApplySpeedboat(Current(w).(id := newId), s, w.compactions).Some?
    ensures CheckpointName(ApplySpeedboat(Current(w).(id := newId), s, w.compactions).value) == NameOf(w.table, newId)
  {
    CloneOne(Current(w), newId, s, w.compactions);
    CloneGood(w.table, Current(w), newId, [s], [], w.compactions);
    assert GoodCheckpoint(w.table, Current(w));
  }

  lemma StandardGoes(w: World, n: nat, id: string, newId: string, next: Checkpoint)
    requires Good(w, n) && GeneratedId(newId) && |newId| > n
    requires id in w.speedboats && Pending(w.trackers, SpeedboatCheckpointed, [id])
    requires ApplySpeedboat(Current(w).(id := newId), w.speedboats[id], w.compactions) == Some(next)
    requires w.pointers[CompactionWork].entityId == NO_WORK_ITEM && CheckpointName(next) == NameOf(w.table, newId)
    ensures UpdateStandard(w, [id], w.trackers, w.pointers[Standard], newId, true, w.pointers[CompactionWork], newId)
            == CompactionItemWrite(StandardWrite(w, [id], next, w.pointers[Standard]), newId, next,
                                   w.pointers[CompactionWork])
  {
    CloneOne(Current(w), newId, w.speedboats[id], w.compactions);
    assert CommitsNamed(w, [id]) == [w.speedboats[id]];
    NameLength(w.table, newId);
    NewTrackerKey(w.trackers, n, WaitingForExtension, NameOf(w.table, newId));
    NewKey(w.checkpoints, n, NameOf(w.table, newId));
    NewKey(w.compactionItems, n, newId);
    assert NoDup([id]) && SameVersions(w.trackers, w.trackers, SpeedboatCheckpointed, [id]);
  }

  /** A checkpoint update over one waiting commit stores the next checkpoint and a work item for it. */
  lemma StandardStores(w: World, n: nat, id: string, newId: string, next: Checkpoint)
    requires Good(w, n) && GeneratedId(newId) && |newId| > n
    requires id in w.speedboats && Pending(w.trackers, SpeedboatCheckpointed, [id])
    requires ApplySpeedboat(Current(w).(id := newId), w.speedboats[id], w.compactions) == Some(next)
    requires w.pointers[CompactionWork].entityId == NO_WORK_ITEM
    ensures var v :=
              UpdateStandard(w, [id], w.trackers, w.pointers[Standard], newId, true, w.pointers[CompactionWork], newId);
            Checkpointed(w, v, |w.table| + 1 + |newId|, next, newId)
  {
    NextName(w, newId, w.speedboats[id]);
    NameLength(w.table, newId);
    StandardGoes(w, n, id, newId, next);
    StandardWriteStores(w, n, id, next, newId, w.pointers[Standard], w.pointers[CompactionWork]);
  }

  // ------------------------------------------------------- an Iceberg commit

  lemma ReplacementLength(table: string, id: string, replaced: string)
    ensures |ReplacementName(table, id, replaced)| == |NameOf(table, id)| + 1 + |replaced|
  {
  }

  lemma CloneIcebergOne(c: Checkpoint, newId: string, i: IcebergCommit, lookup: Compactions)
    requires c.extensions == map[] && ApplyIceberg(c.(id := newId), i, lookup).Some?
    ensures CloneAndApply(c, newId, [], [i], [], lookup).Some?
    ensures CloneAndApply(c, newId, [], [i], [], lookup).value.0 == ApplyIceberg(c.(id := newId), i, lookup).value
  {
    assert RetainCurrent(c.(id := newId)) == c.(id := newId);
    assert ApplyIcebergs(c.(id := newId), [i], lookup) == ApplyIceberg(c.(id := newId), i, lookup);
  }

  lemma NextIcebergName(w: World, newId: string, c: IcebergCommit)
    requires Inv(w) && GeneratedId(newId) && UniquePaths(c.metadata.files)
    requires ApplyIceberg(Current(w).(id := newId), c, w.compactions).Some?
    ensures CheckpointName(ApplyIceberg(Current(w).(id := newId), c, w.compactions).value) == NameOf(w.table, newId)
  {
    CloneIcebergOne(Current(w), newId, c, w.compactions);
    CloneGood(w.table, Current(w), newId, [], [c], w.compactions);
    assert GoodCheckpoint(w.table, Current(w));
  }

  /** The length of the longest key once the replacements are stored too. */
  function LengthAfter(table: string, lookup: Compactions, n: nat, rs: seq<Replacement>): nat {
    if |rs| == 0 then n
    else
      var r := rs[|rs| - 1];
      if r.compactionId !in lookup then n
      else |ReplacementName(table, r.checkpointId, lookup[r.compactionId].checkpointIdToReplace)|
  }

  /** The replacements are of announced compactions, and each has ids longer than every key before it. */
  predicate Grows(table: string, lookup: Compactions, n: nat, rs: seq<Replacement>) {
    |rs| == 0 ||
    var m := |rs| - 1;
    var before := LengthAfter(table, lookup, n, rs[..m]);
    && Grows(table, lookup, n, rs[..m])
    && rs[m].compactionId in lookup && |rs[m].compactionId| <= before
    && GeneratedId(rs[m].checkpointId) && GeneratedId(rs[m].cleanupId)
    && before < |rs[m].cleanupId| <= |rs[m].checkpointId|
  }

  lemma GrowsMore(table: string, lookup: Compactions, n: nat, rs: seq<Replacement>, k: string, id: string)
    requires Grows(table, lookup, n, rs) && k in lookup && GeneratedId(id)
    requires |k| <= LengthAfter(table, lookup, n, rs) < |id|
    ensures Grows(table, lookup, n, rs + [Replacement(k, id, id)])
    ensures LengthAfter(table, lookup, n, rs + [Replacement(k, id, id)])
            == |table| + 1 + |id| + 1 + |lookup[k].checkpointIdToReplace|
  {
    var r := Replacement(k, id, id);
    assert (rs + [r])[..|rs|] == rs && (rs + [r])[|rs|] == r;
    NameLength(table, id);
    ReplacementLength(table, id, lookup[k].checkpointIdToReplace);
  }

  /** What an Iceberg commit leaves behind. */
  ghost predicate Landed(w: World, v: World, n: nat, next: Checkpoint) {
    && Below(v, n) && Current(v) == next && v.compactions == w.compactions && v.table == w.table
    && v.icebergs != w.icebergs
  }

  lemma IcebergWriteStores(w: World, n: nat, c: IcebergCommit, id: string, item: WorkItem, next: Checkpoint)
    requires Below(w, n) && Standard in w.pointers && EsWork in w.pointers && n < |id| < |CheckpointName(next)|
    ensures var u := IcebergWrite(w, c, id, id, item, next, w.pointers[Standard], w.pointers[EsWork]);
            Landed(w, u, |CheckpointName(next)|, next) && TrackerKey(CleanupLease, id) !in u.trackers
  {
    var m := |CheckpointName(next)|;
    BelowMore(w, n, m);
    NewTrackerKey(w.trackers, n, CleanupLease, id);
    KeyBelow(w.icebergs, m, id, c);
    KeyBelow(w.checkpoints, m, CheckpointName(next), next);
    KeyBelow(w.workItems, m, id, MergeIceberg(item, c));
    WaitingBelow(w.trackers, m, CheckpointName(next), next);
    NewKey(w.icebergs, n, id);
  }

  lemma ReplacementWriteStores(w: World, u: World, n: nat, name: string, r: Replacement, k: CompactionCommit,
                               next: Checkpoint)
    requires Landed(w, u, n, next) && n < |name| && |r.cleanupId| <= |name| && |r.compactionId| <= |name|
    requires Standard in u.pointers && u.pointers[Standard].entityId in u.checkpoints
    ensures Landed(w, ReplacementWrite(u, name, r, k, next), |name|, next)
  {
    var m := |name|;
    BelowMore(u, n, m);
    KeyBelow(u.checkpoints, m, name, next);
    KeyBelow(u.cleanupItems, m, r.cleanupId, k.removedSpeedboatFiles + k.removedDeleteFiles);
    ReplacementTrackersBelow(u.trackers, m, name, r, next);
  }

  lemma ReplacementTrackersBelow(ts: Trackers, n: nat, name: string, r: Replacement, next: Checkpoint)
    requires TrackersBelow(ts, n) && |name| <= n && |r.cleanupId| <= n && |r.compactionId| <= n
    ensures TrackersBelow(NewTracker(MarkDone(AddWaiting(ts, name, next), TrackerKey(CompactionLease, r.compactionId)),
                                     CleanupLease, r.cleanupId, UNCLAIMED_TIME), n)
  {
    WaitingBelow(ts, n, name, next);
  }

  /** What the commit asks of the store beyond new ids. */
  ghost predicate Replaces(w: World, c: IcebergCommit) {
    && UniquePaths(c.metadata.files)
    && forall k :: k in c.compactions ==> k in w.compactions && ReplacementApplies(w, w.compactions[k], c)
  }

  lemma ReplacementGoes(w: World, u: World, n: nat, c: IcebergCommit, r: Replacement, name: string, next: Checkpoint)
    requires Below(u, n) && |name| > n && |r.cleanupId| > n && GeneratedId(r.checkpointId) && GeneratedId(r.cleanupId)
    requires r.compactionId in w.compactions && ReplacementApplies(w, w.compactions[r.compactionId], c)
    requires name == ReplacementName(u.table, r.checkpointId, w.compactions[r.compactionId].checkpointIdToReplace)
    ensures AddReplacement(w, u, c, r, next) == Some(ReplacementWrite(u, name, r, w.compactions[r.compactionId], next))
  {
    NewTrackerKey(u.trackers, n, WaitingForExtension, name);
    NewTrackerKey(u.trackers, n, CleanupLease, r.cleanupId);
    NewKey(u.checkpoints, n, name);
    NewKey(u.cleanupItems, n, r.cleanupId);
  }

  /** The latest checkpoint is stored. */
  predicate Pointed(w: World) { Standard in w.pointers && w.pointers[Standard].entityId in w.checkpoints }

  /** One more replacement is stored. */
  lemma OneMore(w: World, u: World, n: nat, c: IcebergCommit, r: Replacement, next: Checkpoint) returns (v: World)
    requires Landed(w, u, n, next) && Pointed(u)
    requires r.compactionId in w.compactions && ReplacementApplies(w, w.compactions[r.compactionId], c)
    requires |r.compactionId| <= n && GeneratedId(r.checkpointId) && GeneratedId(r.cleanupId)
    requires n < |r.cleanupId| <= |r.checkpointId|
    ensures AddReplacement(w, u, c, r, next) == Some(v) && Pointed(v)
    ensures var replaced := w.compactions[r.compactionId].checkpointIdToReplace;
            Landed(w, v, |ReplacementName(w.table, r.checkpointId, replaced)|, next)
  {
    var k := w.compactions[r.compactionId];
    var name := ReplacementName(w.table, r.checkpointId, k.checkpointIdToReplace);
    NameLength(w.table, r.checkpointId);
    ReplacementLength(w.table, r.checkpointId, k.checkpointIdToReplace);
    v := ReplacementWrite(u, name, r, k, next);
    ReplacementGoes(w, u, n, c, r, name, next);
    ReplacementWriteStores(w, u, n, name, r, k, next);
  }

  /** All replacements are stored. */
  lemma {:induction false} ReplacementsGo(w: World, u: World, n: nat, c: IcebergCommit, rs: seq<Replacement>,
                                          next: Checkpoint)
    returns (v: World)
    requires Landed(w, u, n, next) && Pointed(u) && Grows(w.table, w.compactions, n, rs)
    requires forall i :: 0 <= i < |rs| ==> ReplacementOf(w, c, rs[i])
    ensures AddReplacements(w, u, c, rs, next) == Some(v) && Pointed(v)
    ensures Landed(w, v, LengthAfter(w.table, w.compactions, n, rs), next)
    decreases |rs|
  {
    if |rs| == 0 {
      v := u;
    } else {
      var m := |rs| - 1;
      var t := ReplacementsGo(w, u, n, c, rs[..m], next);
      assert ReplacementOf(w, c, rs[m]);
      v := OneMore(w, t, LengthAfter(w.table, w.compactions, n, rs[..m]), c, rs[m], next);
    }
  }

  predicate ReplacementOf(w: World, c: IcebergCommit, r: Replacement) {
    r.compactionId in w.compactions && ReplacementApplies(w, w.compactions[r.compactionId], c)
  }

  lemma ReplacementsOf(w: World, c: IcebergCommit, rs: seq<Replacement>)
    requires Replaces(w, c) && ReplacesAll(c, rs)
    ensures forall i :: 0 <= i < |rs| ==> ReplacementOf(w, c, rs[i])
  {
    forall i | 0 <= i < |rs|
      ensures ReplacementOf(w, c, rs[i])
    {
      var listed := set k | k in c.compactions;
      assert rs[i] in rs && rs[i].compactionId in listed;
    }
  }

  /** The conditions of `commit_iceberg` before its replacements. */
  ghost predicate IcebergFree(w: World, c: IcebergCommit, rs: seq<Replacement>, id: string, next: Checkpoint) {
    && GeneratedId(id) && UniquePaths(c.metadata.files) && ReplacesAll(c, rs)
    && id !in w.icebergs && id !in w.workItems && CheckpointName(next) !in w.checkpoints
    && WaitingFree(w.trackers, CheckpointName(next), next)
  }

  lemma IcebergIsFree(w: World, n: nat, c: IcebergCommit, rs: seq<Replacement>, id: string, next: Checkpoint)
    requires Below(w, n) && GeneratedId(id) && |id| > n && UniquePaths(c.metadata.files) && ReplacesAll(c, rs)
    requires CheckpointName(next) == NameOf(w.table, id)
    ensures IcebergFree(w, c, rs, id, next)
  {
    NameLength(w.table, id);
    NewTrackerKey(w.trackers, n, WaitingForExtension, NameOf(w.table, id));
    NewKey(w.checkpoints, n, NameOf(w.table, id));
    NewKey(w.icebergs, n, id);
    NewKey(w.workItems, n, id);
  }

  lemma IcebergGoes(w: World, c: IcebergCommit, rs: seq<Replacement>, id: string, next: Checkpoint, item: WorkItem,
                    v: World)
    requires Standard in w.pointers && EsWork in w.pointers && w.pointers[Standard].entityId in w.checkpoints
    requires IcebergFree(w, c, rs, id, next) && PendingItem(w, w.pointers[EsWork]) == Some(item)
    requires var applied := CloneAndApply(w.checkpoints[w.pointers[Standard].entityId], id, [], [c], [], w.compactions);
             applied.Some? && applied.value.0 == next
    requires AddReplacements(w, IcebergWrite(w, c, id, id, item, next, w.pointers[Standard], w.pointers[EsWork]),
                             c, rs, next)
             == Some(v)
    ensures CommitIceberg(w, c, id, id, id, rs, w.pointers[Standard], w.pointers[EsWork]) == v
  {
  }

  /** The length of the longest key after an Iceberg commit. */
  function LandedLength(w: World, id: string, rs: seq<Replacement>): nat {
    LengthAfter(w.table, w.compactions, |NameOf(w.table, id)|, rs)
  }

  /** The ids of an Iceberg commit and of its replacements are new. */
  predicate NewIds(w: World, n: nat, id: string, rs: seq<Replacement>) {
    GeneratedId(id) && |id| > n && Grows(w.table, w.compactions, |NameOf(w.table, id)|, rs)
  }

  /** An Iceberg commit lands, with the replacements for all compactions that it lists. */
  lemma IcebergStores(w: World, n: nat, c: IcebergCommit, rs: seq<Replacement>, id: string, next: Checkpoint)
    requires Good(w, n) && NewIds(w, n, id, rs) && Replaces(w, c) && ReplacesAll(c, rs)
    requires ApplyIceberg(Current(w).(id := id), c, w.compactions) == Some(next)
    ensures var v := CommitIceberg(w, c, id, id, id, rs, w.pointers[Standard], w.pointers[EsWork]);
            Landed(w, v, LandedLength(w, id, rs), next)
  {
    var item := PendingItem(w, w.pointers[EsWork]).value;
    var u := IcebergWrite(w, c, id, id, item, next, w.pointers[Standard], w.pointers[EsWork]);
    NextIcebergName(w, id, c);
    NameLength(w.table, id);
    IcebergWriteStores(w, n, c, id, item, next);
    ReplacementsOf(w, c, rs);
    var v := ReplacementsGo(w, u, |NameOf(w.table, id)|, c, rs, next);
    CloneIcebergOne(Current(w), id, c, w.compactions);
    IcebergIsFree(w, n, c, rs, id, next);
    IcebergGoes(w, c, rs, id, next, item, v);
  }

  // ----------------------------------------------- actions with present reads

  lemma HoldsThen(h: seq<World>, acts: seq<Action>, i: nat)
    requires IsRun(h, acts) && i < |h|
    ensures Inv(h[i]) && CompactionWork in h[i].pointers
  {
    RunsAreSafe(h, acts);
    assert HoldsAt(h, i);
  }

  lemma ReadsNow(h: seq<World>, i: nat, k: PointerKey)
    requires i < |h|
    ensures ReadAt(h[..i + 1], i, k) == Describe(h[i], k) && h[..i + 1][i] == h[i]
  {
  }

  lemma SpeedboatHappens(h: seq<World>, acts: seq<Action>, i: nat, n: nat, c: SpeedboatCommit, id: string)
    requires IsRun(h, acts) && i < |acts| && acts[i] == SpeedboatAction(c, id, id, i)
    requires Below(h[i], n) && GeneratedId(id) && |id| > n && |c.typeFiles| > 0
    requires forall j :: 0 <= j < |c.typeFiles| && IsData(c.typeFiles[j]) ==> c.typeFiles[j].schema.Some?
    ensures Stored(h[i], h[i + 1], c, id)
  {
    HoldsThen(h, acts, i);
    StepOf(h, acts, i);
    ReadsNow(h, i, EsWork);
    SpeedboatIs(h[..i + 1], c, id, id, i);
    SpeedboatStores(h[i], n, c, id);
  }

  lemma StandardHappens(h: seq<World>, acts: seq<Action>, i: nat, n: nat, id: string, newId: string, next: Checkpoint)
    requires IsRun(h, acts) && i < |acts| && acts[i] == StandardAction([id], i, i, newId, true, i, newId)
    requires Below(h[i], n) && GeneratedId(newId) && |newId| > n
    requires id in h[i].speedboats && Pending(h[i].trackers, SpeedboatCheckpointed, [id])
    requires ApplySpeedboat(Current(h[i]).(id := newId), h[i].speedboats[id], h[i].compactions) == Some(next)
    requires CompactionWork in h[i].pointers && h[i].pointers[CompactionWork].entityId == NO_WORK_ITEM
    ensures Checkpointed(h[i], h[i + 1], |h[i].table| + 1 + |newId|, next, newId)
  {
    HoldsThen(h, acts, i);
    StepOf(h, acts, i);
    ReadsNow(h, i, Standard);
    ReadsNow(h, i, CompactionWork);
    StandardIs(h[..i + 1], [id], i, i, newId, true, i, newId);
    StandardStores(h[i], n, id, newId, next);
  }

  lemma TakeHappens(h: seq<World>, acts: seq<Action>, i: nat, n: nat)
    requires IsRun(h, acts) && i < |acts| && acts[i] == TakeCompaction(i)
    requires Below(h[i], n) && CompactionWork in h[i].pointers
    requires h[i].pointers[CompactionWork].entityId != NO_WORK_ITEM && |h[i].pointers[CompactionWork].entityId| <= n
    requires TrackerKey(CompactionLease, h[i].pointers[CompactionWork].entityId) !in h[i].trackers
    ensures Taken(h[i], h[i + 1], n)
  {
    StepOf(h, acts, i);
    ReadsNow(h, i, CompactionWork);
    TakeCompactionIs(h[..i + 1], i);
    TakeStores(h[i], n);
  }

  lemma RecordHappens(h: seq<World>, acts: seq<Action>, i: nat, n: nat, k: CompactionCommit)
    requires IsRun(h, acts) && i < |acts| && acts[i] == CompactionAction(k)
    requires Below(h[i], n) && |k.compactionId| > 0 && k.compactionId !in h[i].compactions
    ensures Recorded(h[i], h[i + 1], n, k)
  {
    StepOf(h, acts, i);
    assert h[..i + 1][i] == h[i];
    RecordStores(h[i], n, k);
  }

  lemma IcebergHappens(h: seq<World>, acts: seq<Action>, i: nat, n: nat, c: IcebergCommit, rs: seq<Replacement>,
                       id: string, next: Checkpoint)
    requires IsRun(h, acts) && i < |acts| && acts[i] == IcebergAction(c, id, id, id, rs, i, i)
    requires Below(h[i], n) && NewIds(h[i], n, id, rs) && Replaces(h[i], c) && ReplacesAll(c, rs)
    requires ApplyIceberg(Current(h[i]).(id := id), c, h[i].compactions) == Some(next)
    ensures Landed(h[i], h[i + 1], LandedLength(h[i], id, rs), next)
  {
    HoldsThen(h, acts, i);
    StepOf(h, acts, i);
    ReadsNow(h, i, Standard);
    ReadsNow(h, i, EsWork);
    IcebergIs(h[..i + 1], c, id, id, id, rs, i, i);
    IcebergStores(h[i], n, c, rs, id, next);
  }
}
