/** Conditional transactions of the metadata store (`query_runtime/src/dynamodb.rs`): a list of operations,
    each on one record and with a condition on it, executed all or nothing. */
module Transactions {
  import opened Prelude
  import opened Checkpoints
  import opened Protocol

  datatype Op =
    | BumpVersion(key: PointerKey, read: Latest, id: string)
    | CreateTracker(tracker: TrackerKey, claimedAt: int)
    | MarkDoneAt(tracker: TrackerKey, expected: TrackerVersion)
    | MarkDoneAny(tracker: TrackerKey)
    | Claim(tracker: TrackerKey, expected: TrackerVersion, now: int)
    | CreateCheckpoint(id: string, checkpoint: Checkpoint)
    | CreateSpeedboat(id: string, speedboat: SpeedboatCommit)
    | CreateIceberg(id: string, iceberg: IcebergCommit)
    | CreateWorkItem(id: string, item: WorkItem)
    | CreateCompactionItem(id: string, compactionItem: CompactionWorkItem)
    | CreateCleanupItem(id: string, files: seq<string>)

  /** The condition attached to an operation. */
  predicate Allowed(w: World, op: Op) {
    match op
    case BumpVersion(k, read, _) => Unchanged(w, k, read)
    case CreateTracker(k, _) => k !in w.trackers
    case MarkDoneAt(k, v) => k in w.trackers && w.trackers[k].version == v
    case MarkDoneAny(_) => true
    case Claim(k, v, _) => k in w.trackers && w.trackers[k].version == v
    case CreateCheckpoint(id, _) => id !in w.checkpoints
    case CreateSpeedboat(id, _) => id !in w.speedboats
    case CreateIceberg(id, _) => id !in w.icebergs
    case CreateWorkItem(id, _) => id !in w.workItems
    case CreateCompactionItem(id, _) => id !in w.compactionItems
    case CreateCleanupItem(id, _) => id !in w.cleanupItems
  }

  function Perform(w: World, op: Op): World {
    match op
    case BumpVersion(k, read, id) => w.(pointers := Bump(w.pointers, k, read, id))
    case CreateTracker(k, at) => w.(trackers := NewTracker(w.trackers, k.kind, k.name, at))
    case MarkDoneAt(k, _) => w.(trackers := MarkDone(w.trackers, k))
    case MarkDoneAny(k) => w.(trackers := MarkDone(w.trackers, k))
    case Claim(k, v, now) => w.(trackers := w.trackers[k := Tracker(v + 1, now)])
    case CreateCheckpoint(id, c) => w.(checkpoints := w.checkpoints[id := c])
    case CreateSpeedboat(id, c) => w.(speedboats := w.speedboats[id := c])
    case CreateIceberg(id, c) => w.(icebergs := w.icebergs[id := c])
    case CreateWorkItem(id, item) => w.(workItems := w.workItems[id := item])
    case CreateCompactionItem(id, item) => w.(compactionItems := w.compactionItems[id := item])
    case CreateCleanupItem(id, files) => w.(cleanupItems := w.cleanupItems[id := files])
  }

  /** Operations checked and performed one after the other. */
  function Run(w: World, ops: seq<Op>): Option<World> {
    if |ops| == 0 then Some(w)
    else
      match Run(w, ops[..|ops| - 1])
      case None => None
      case Some(v) => if Allowed(v, ops[|ops| - 1]) then Some(Perform(v, ops[|ops| - 1])) else None
  }

  lemma RunAppend(w: World, ops: seq<Op>, op: Op)
    ensures Run(w, ops + [op]) ==
            match Run(w, ops)
            case None => None
            case Some(v) => if Allowed(v, op) then Some(Perform(v, op)) else None
  {
    assert (ops + [op])[..|ops|] == ops;
  }

  // ------------------------------------------------------------------ records

  /** The record that an operation writes. */
  datatype Record =
    | PointerOf(key: PointerKey) | TrackerOf(tracker: TrackerKey) | CheckpointOf(id: string) | SpeedboatOf(id: string)
    | IcebergOf(id: string) | WorkItemOf(id: string) | CompactionItemOf(id: string) | CleanupItemOf(id: string)

  function Target(op: Op): Record {
    match op
    case BumpVersion(k, _, _) => PointerOf(k)
    case CreateTracker(k, _) => TrackerOf(k)
    case MarkDoneAt(k, _) => TrackerOf(k)
    case MarkDoneAny(k) => TrackerOf(k)
    case Claim(k, _, _) => TrackerOf(k)
    case CreateCheckpoint(id, _) => CheckpointOf(id)
    case CreateSpeedboat(id, _) => SpeedboatOf(id)
    case CreateIceberg(id, _) => IcebergOf(id)
    case CreateWorkItem(id, _) => WorkItemOf(id)
    case CreateCompactionItem(id, _) => CompactionItemOf(id)
    case CreateCleanupItem(id, _) => CleanupItemOf(id)
  }

  predicate IsCreate(op: Op) {
    !op.BumpVersion? && !op.MarkDoneAt? && !op.MarkDoneAny? && !op.Claim?
  }

  /** What a condition can see of a record; of an entity only whether it is there. */
  datatype View = Absent | Present | PointerAt(pointer: Latest) | TrackerAt(state: Tracker)

  function Seen(there: bool): View { if there then Present else Absent }

  function See(w: World, r: Record): View {
    match r
    case PointerOf(k) => if k in w.pointers then PointerAt(w.pointers[k]) else Absent
    case TrackerOf(k) => if k in w.trackers then TrackerAt(w.trackers[k]) else Absent
    case CheckpointOf(id) => Seen(id in w.checkpoints)
    case SpeedboatOf(id) => Seen(id in w.speedboats)
    case IcebergOf(id) => Seen(id in w.icebergs)
    case WorkItemOf(id) => Seen(id in w.workItems)
    case CompactionItemOf(id) => Seen(id in w.compactionItems)
    case CleanupItemOf(id) => Seen(id in w.cleanupItems)
  }

  /** A condition depends on nothing but the record. */
  lemma SeenDecides(w: World, v: World, op: Op)
    requires See(w, Target(op)) == See(v, Target(op))
    ensures Allowed(w, op) <==> Allowed(v, op)
  {
  }

  /** What is seen of a record depends on one part of the store. */
  lemma SameSeen(w: World, v: World, r: Record)
    requires match r {
      case PointerOf(_) => v.pointers == w.pointers
      case TrackerOf(_) => v.trackers == w.trackers
      case CheckpointOf(_) => v.checkpoints == w.checkpoints
      case SpeedboatOf(_) => v.speedboats == w.speedboats
      case IcebergOf(_) => v.icebergs == w.icebergs
      case WorkItemOf(_) => v.workItems == w.workItems
      case CompactionItemOf(_) => v.compactionItems == w.compactionItems
      case CleanupItemOf(_) => v.cleanupItems == w.cleanupItems
    }
    ensures See(v, r) == See(w, r)
  {
  }

  lemma TrackersSeen(w: World, op: Op, r: Record)
    requires r != Target(op) && Target(op).TrackerOf?
    ensures See(Perform(w, op), r) == See(w, r)
  {
    if !r.TrackerOf? { SameSeen(w, Perform(w, op), r); }
  }

  lemma EntitiesSeen(w: World, op: Op, r: Record)
    requires r != Target(op) && !Target(op).TrackerOf? && !Target(op).PointerOf?
    ensures See(Perform(w, op), r) == See(w, r)
  {
    match op
    case CreateCheckpoint(_, _) => if !r.CheckpointOf? { SameSeen(w, Perform(w, op), r); }
    case CreateSpeedboat(_, _) => if !r.SpeedboatOf? { SameSeen(w, Perform(w, op), r); }
    case CreateIceberg(_, _) => if !r.IcebergOf? { SameSeen(w, Perform(w, op), r); }
    case CreateWorkItem(_, _) => if !r.WorkItemOf? { SameSeen(w, Perform(w, op), r); }
    case CreateCompactionItem(_, _) => if !r.CompactionItemOf? { SameSeen(w, Perform(w, op), r); }
    case CreateCleanupItem(_, _) => if !r.CleanupItemOf? { SameSeen(w, Perform(w, op), r); }
  }

  /** An operation changes nothing but its record. */
  lemma OthersSeen(w: World, op: Op, r: Record)
    requires r != Target(op)
    ensures See(Perform(w, op), r) == See(w, r)
  {
    if Target(op).TrackerOf? {
      TrackersSeen(w, op, r);
    } else if Target(op).PointerOf? {
      if !r.PointerOf? { SameSeen(w, Perform(w, op), r); }
    } else {
      EntitiesSeen(w, op, r);
    }
  }

  lemma CreateSeen(w: World, op: Op)
    requires IsCreate(op)
    ensures Allowed(w, op) <==> See(w, Target(op)) == Absent
    ensures Allowed(w, op) ==> See(Perform(w, op), Target(op)) != Absent
  {
  }

  // ---------------------------------------------------- all conditions at once

  /** The records of the operations that change one, and of those that create one. */
  function Updated(ops: seq<Op>): set<Record> {
    set op | op in ops && !IsCreate(op) :: Target(op)
  }

  function Created(ops: seq<Op>): set<Record> {
    set op | op in ops && IsCreate(op) :: Target(op)
  }

  /** No two operations have the same record. */
  predicate Distinct(ops: seq<Op>) {
    forall i, j :: 0 <= i < j < |ops| ==> Target(ops[i]) != Target(ops[j])
  }

  predicate AllAllowed(w: World, ops: seq<Op>) {
    forall i :: 0 <= i < |ops| ==> Allowed(w, ops[i])
  }

  /** Two operations on one record, if any, both create it. */
  predicate WellBuilt(ops: seq<Op>) {
    if |ops| == 0 then true
    else
      var before, op := ops[..|ops| - 1], ops[|ops| - 1];
      && WellBuilt(before) && Target(op) !in Updated(before) && (!IsCreate(op) ==> Target(op) !in Created(before))
  }

  lemma {:induction false} UntouchedSeen(w: World, ops: seq<Op>, r: Record)
    requires Run(w, ops).Some? && r !in Updated(ops) && r !in Created(ops)
    ensures See(Run(w, ops).value, r) == See(w, r)
  {
    if |ops| != 0 {
      var m := |ops| - 1;
      assert ops[m] in ops;
      UntouchedSeen(w, ops[..m], r);
      OthersSeen(Run(w, ops[..m]).value, ops[m], r);
    }
  }

  /** A record that was created is there at the end. */
  lemma {:induction false} CreatedSeen(w: World, ops: seq<Op>, r: Record)
    requires Run(w, ops).Some? && r in Created(ops) && Distinct(ops)
    ensures See(Run(w, ops).value, r) != Absent
  {
    var m := |ops| - 1;
    var v := Run(w, ops[..m]).value;
    if r == Target(ops[m]) {
      CreateLast(ops, r);
      CreateSeen(v, ops[m]);
    } else {
      CreatedSeen(w, ops[..m], r);
      OthersSeen(v, ops[m], r);
    }
  }

  lemma CreateLast(ops: seq<Op>, r: Record)
    requires |ops| > 0 && Distinct(ops) && r in Created(ops) && r == Target(ops[|ops| - 1])
    ensures IsCreate(ops[|ops| - 1])
  {
    var i :| 0 <= i < |ops| && IsCreate(ops[i]) && Target(ops[i]) == r;
  }

  lemma DistinctMore(ops: seq<Op>)
    requires |ops| > 0
    ensures var m := |ops| - 1;
            Distinct(ops) <==>
              Distinct(ops[..m]) && Target(ops[m]) !in Updated(ops[..m]) && Target(ops[m]) !in Created(ops[..m])
  {
    var m := |ops| - 1;
    var r := Target(ops[m]);
    if r in Updated(ops[..m]) || r in Created(ops[..m]) {
      var i :| 0 <= i < m && Target(ops[i]) == r;
    }
    if Distinct(ops[..m]) && r !in Updated(ops[..m]) && r !in Created(ops[..m]) {
      forall i | 0 <= i < m
        ensures Target(ops[i]) != r
      {
        assert ops[..m][i] in ops[..m];
      }
    }
  }

  /** Checking and performing one operation after the other succeeds exactly when no two operations share a
      record and every condition holds at the start. */
  lemma {:induction false} RunIsAtomic(w: World, ops: seq<Op>)
    requires WellBuilt(ops)
    ensures Run(w, ops).Some? <==> Distinct(ops) && AllAllowed(w, ops)
  {
    if |ops| != 0 {
      var m := |ops| - 1;
      RunIsAtomic(w, ops[..m]);
      DistinctMore(ops);
      if Run(w, ops[..m]).Some? { LastAllowed(w, ops); }
    }
  }

  lemma LastAllowed(w: World, ops: seq<Op>)
    requires |ops| > 0 && WellBuilt(ops) && Run(w, ops[..|ops| - 1]).Some? && Distinct(ops[..|ops| - 1])
    ensures var m := |ops| - 1; var v := Run(w, ops[..m]).value;
            Allowed(v, ops[m]) <==> Target(ops[m]) !in Created(ops[..m]) && Allowed(w, ops[m])
  {
    var m := |ops| - 1;
    var r := Target(ops[m]);
    if r in Created(ops[..m]) {
      CreatedSeen(w, ops[..m], r);
      CreateSeen(Run(w, ops[..m]).value, ops[m]);
    } else {
      UntouchedSeen(w, ops[..m], r);
      SeenDecides(w, Run(w, ops[..m]).value, ops[m]);
    }
  }

  // --------------------------------------------------------- building the lists

  lemma {:induction false} OnlyCreations(ops: seq<Op>)
    requires forall i :: 0 <= i < |ops| ==> IsCreate(ops[i])
    ensures WellBuilt(ops) && Updated(ops) == {}
  {
    if |ops| != 0 { OnlyCreations(ops[..|ops| - 1]); }
  }

  /** The records that the commits of checkpoints change; they create all others. */
  predicate Updatable(r: Record) {
    r.PointerOf? || (r.TrackerOf? && (r.tracker.kind == SpeedboatCheckpointed || r.tracker.kind == CompactionLease))
  }

  /** A list that changes only such records and creates only others. */
  ghost predicate Tidy(ops: seq<Op>) {
    && WellBuilt(ops) && (forall r :: r in Updated(ops) ==> Updatable(r))
    && (forall r :: r in Created(ops) ==> !Updatable(r))
  }

  lemma RecordsMore(ops: seq<Op>, op: Op)
    ensures Updated(ops + [op]) == if IsCreate(op) then Updated(ops) else Updated(ops) + {Target(op)}
    ensures Created(ops + [op]) == if IsCreate(op) then Created(ops) + {Target(op)} else Created(ops)
  {
    assert op in ops + [op];
    assert forall x :: x in ops + [op] <==> x in ops || x == op;
  }

  lemma WellBuiltMore(ops: seq<Op>, op: Op)
    requires WellBuilt(ops) && Target(op) !in Updated(ops) && (!IsCreate(op) ==> Target(op) !in Created(ops))
    ensures WellBuilt(ops + [op])
  {
    assert (ops + [op])[..|ops|] == ops;
  }

  /** A tidy list that changes exactly these records. */
  ghost predicate Updates(ops: seq<Op>, rs: set<Record>) { Tidy(ops) && Updated(ops) == rs }

  lemma NoUpdates()
    ensures Updates([], {})
  {
  }

  lemma OneUpdate(op: Op)
    requires !IsCreate(op) && Updatable(Target(op))
    ensures Updates([op], {Target(op)})
  {
    NoUpdates();
    assert [] + [op] == [op];
    UpdateMore([], {}, op);
    assert {} + {Target(op)} == {Target(op)};
  }

  lemma UpdatesBuilt(ops: seq<Op>, rs: set<Record>)
    requires Updates(ops, rs)
    ensures WellBuilt(ops)
  {
  }

  lemma CreateMore(ops: seq<Op>, rs: set<Record>, op: Op)
    requires Updates(ops, rs) && IsCreate(op) && !Updatable(Target(op))
    ensures Updates(ops + [op], rs)
  {
    RecordsMore(ops, op);
    WellBuiltMore(ops, op);
  }

  lemma UpdateMore(ops: seq<Op>, rs: set<Record>, op: Op)
    requires Updates(ops, rs) && !IsCreate(op) && Updatable(Target(op)) && Target(op) !in rs
    ensures Updates(ops + [op], rs + {Target(op)})
  {
    RecordsMore(ops, op);
    WellBuiltMore(ops, op);
  }
}
