/** What holds in every run of the checkpoint protocol, whatever the interleaving and however stale
    the reads. */
module ProtocolRuns {
  import opened Prelude
  import opened Checkpoints
  import opened Descriptors
  import opened Protocol
  import opened ProtocolSafety

  /** `v` keeps the invariant and does not go back on `w`. */
  ghost predicate Keeps(w: World, v: World) { Inv(v) && Forward(w, v) }

  ghost predicate HoldsAt(h: seq<World>, i: nat)
    requires i < |h|
  {
    Inv(h[i]) && CompactionWork in h[i].pointers
  }

  ghost predicate Ordered(h: seq<World>, i: nat, j: nat)
    requires i < |h| && j < |h|
  {
    Forward(h[i], h[j])
  }

  /** Every world keeps the invariant, and every later world is a forward one. */
  ghost predicate History(h: seq<World>) {
    && |h| > 0
    && (forall i :: 0 <= i < |h| ==> HoldsAt(h, i))
    && (forall i, j :: 0 <= i <= j < |h| ==> Ordered(h, i, j))
  }

  lemma Now(h: seq<World>)
    requires History(h)
    ensures Inv(h[|h| - 1]) && CompactionWork in h[|h| - 1].pointers
  {
    assert HoldsAt(h, |h| - 1);
  }

  /** A pointer that was read is the present one or an older version of it. */
  lemma ReadForward(h: seq<World>, i: nat, k: PointerKey)
    requires History(h) && ReadAt(h, i, k).Some?
    ensures var w := h[|h| - 1]; k in w.pointers && PointerForward(ReadAt(h, i, k).value, w.pointers[k])
  {
    assert Ordered(h, i, |h| - 1);
  }

  lemma TickKeeps(w: World, now: int)
    requires Inv(w) && now >= w.now
    ensures Inv(w.(now := now)) && Forward(w, w.(now := now))
  {
    InvDepends(w, w.(now := now));
    ForwardReflexive(w);
  }

  // For each action: the world after it as a plain write, and why that write keeps the invariant.

  lemma SpeedboatIs(h: seq<World>, c: SpeedboatCommit, id: string, workId: string, i: nat)
    requires |h| > 0
    ensures Next(h, SpeedboatAction(c, id, workId, i)) ==
            if ReadAt(h, i, EsWork).Some? then
              CommitSpeedboat(h[|h| - 1], c, id, workId, ReadAt(h, i, EsWork).value)
            else h[|h| - 1]
  {
  }

  lemma SpeedboatStep(h: seq<World>, c: SpeedboatCommit, id: string, workId: string, i: nat)
    requires History(h)
    ensures Keeps(h[|h| - 1], Next(h, SpeedboatAction(c, id, workId, i)))
  {
    Now(h);
    SpeedboatIs(h, c, id, workId, i);
    if ReadAt(h, i, EsWork).Some? {
      ReadForward(h, i, EsWork);
      SpeedboatKeeps(h[|h| - 1], c, id, workId, ReadAt(h, i, EsWork).value);
    } else {
      ForwardReflexive(h[|h| - 1]);
    }
  }

  lemma IcebergIs(h: seq<World>, c: IcebergCommit, id: string, newId: string, workId: string, rs: seq<Replacement>,
                  i: nat, j: nat)
    requires |h| > 0
    ensures Next(h, IcebergAction(c, id, newId, workId, rs, i, j)) ==
            if ReadAt(h, i, Standard).Some? && ReadAt(h, j, EsWork).Some? then
              CommitIceberg(h[|h| - 1], c, id, newId, workId, rs, ReadAt(h, i, Standard).value,
                            ReadAt(h, j, EsWork).value)
            else h[|h| - 1]
  {
  }

  lemma IcebergStep(h: seq<World>, c: IcebergCommit, id: string, newId: string, workId: string, rs: seq<Replacement>,
                    i: nat, j: nat)
    requires History(h)
    ensures Keeps(h[|h| - 1], Next(h, IcebergAction(c, id, newId, workId, rs, i, j)))
  {
    Now(h);
    IcebergIs(h, c, id, newId, workId, rs, i, j);
    if ReadAt(h, i, Standard).Some? && ReadAt(h, j, EsWork).Some? {
      ReadForward(h, i, Standard);
      ReadForward(h, j, EsWork);
      IcebergKeeps(h[|h| - 1], c, id, newId, workId, rs, ReadAt(h, i, Standard).value, ReadAt(h, j, EsWork).value);
    } else {
      ForwardReflexive(h[|h| - 1]);
    }
  }

  lemma StandardIs(h: seq<World>, names: seq<string>, i: nat, j: nat, newId: string, compact: bool, k: nat,
                   itemId: string)
    requires |h| > 0
    ensures Next(h, StandardAction(names, i, j, newId, compact, k, itemId)) ==
            if i < |h| && ReadAt(h, j, Standard).Some? && ReadAt(h, k, CompactionWork).Some? then
              UpdateStandard(h[|h| - 1], names, h[i].trackers, ReadAt(h, j, Standard).value, newId, compact,
                             ReadAt(h, k, CompactionWork).value, itemId)
            else h[|h| - 1]
  {
  }

  lemma StandardStep(h: seq<World>, names: seq<string>, i: nat, j: nat, newId: string, compact: bool, k: nat,
                     itemId: string)
    requires History(h)
    ensures Keeps(h[|h| - 1], Next(h, StandardAction(names, i, j, newId, compact, k, itemId)))
  {
    Now(h);
    StandardIs(h, names, i, j, newId, compact, k, itemId);
    if i < |h| && ReadAt(h, j, Standard).Some? && ReadAt(h, k, CompactionWork).Some? {
      ReadForward(h, j, Standard);
      ReadForward(h, k, CompactionWork);
      StandardKeeps(h[|h| - 1], names, h[i].trackers, ReadAt(h, j, Standard).value, newId, compact,
                    ReadAt(h, k, CompactionWork).value, itemId);
    } else {
      ForwardReflexive(h[|h| - 1]);
    }
  }

  lemma EsIs(h: seq<World>, exts: seq<string>, i: nat, name: string, j: nat, newId: string, k: nat)
    requires |h| > 0
    ensures Next(h, EsAction(exts, i, name, j, newId, k)) ==
            if i < |h| && j < |h| && ReadAt(h, k, Es).Some? then
              UpdateEs(h[|h| - 1], exts, h[i].trackers, name, h[j].trackers, newId, ReadAt(h, k, Es).value)
            else h[|h| - 1]
  {
  }

  lemma EsStep(h: seq<World>, exts: seq<string>, i: nat, name: string, j: nat, newId: string, k: nat)
    requires History(h)
    ensures Keeps(h[|h| - 1], Next(h, EsAction(exts, i, name, j, newId, k)))
  {
    Now(h);
    EsIs(h, exts, i, name, j, newId, k);
    if i < |h| && j < |h| && ReadAt(h, k, Es).Some? {
      ReadForward(h, k, Es);
      EsKeeps(h[|h| - 1], exts, h[i].trackers, name, h[j].trackers, newId, ReadAt(h, k, Es).value);
    } else {
      ForwardReflexive(h[|h| - 1]);
    }
  }

  lemma TakeIs(h: seq<World>, i: nat)
    requires |h| > 0
    ensures Next(h, TakeExtension(i)) ==
            if ReadAt(h, i, EsWork).Some? then
              TakeExtensionItem(h[|h| - 1], ReadAt(h, i, EsWork).value)
            else h[|h| - 1]
  {
  }

  lemma TakeStep(h: seq<World>, i: nat)
    requires History(h)
    ensures Keeps(h[|h| - 1], Next(h, TakeExtension(i)))
  {
    Now(h);
    TakeIs(h, i);
    if ReadAt(h, i, EsWork).Some? {
      ReadForward(h, i, EsWork);
      TakeKeeps(h[|h| - 1], ReadAt(h, i, EsWork).value);
    } else {
      ForwardReflexive(h[|h| - 1]);
    }
  }

  lemma TakeCompactionIs(h: seq<World>, i: nat)
    requires |h| > 0
    ensures Next(h, TakeCompaction(i)) ==
            if ReadAt(h, i, CompactionWork).Some? then
              TakeCompactionItem(h[|h| - 1], ReadAt(h, i, CompactionWork).value)
            else h[|h| - 1]
  {
  }

  lemma TakeCompactionStep(h: seq<World>, i: nat)
    requires History(h)
    ensures Keeps(h[|h| - 1], Next(h, TakeCompaction(i)))
  {
    Now(h);
    TakeCompactionIs(h, i);
    if ReadAt(h, i, CompactionWork).Some? {
      ReadForward(h, i, CompactionWork);
      TakeCompactionKeeps(h[|h| - 1], ReadAt(h, i, CompactionWork).value);
    } else {
      ForwardReflexive(h[|h| - 1]);
    }
  }

  lemma ClaimIs(h: seq<World>, names: seq<string>, i: nat, j: nat)
    requires |h| > 0
    ensures Next(h, ClaimCleanup(names, i, j)) ==
            if i <= j < |h| then
              ClaimCleanupItems(h[|h| - 1], names, h[i].trackers, h[i].now, h[j].now)
            else h[|h| - 1]
  {
  }

  /** What a claim relies on. */
  lemma ClockForward(h: seq<World>, i: nat, j: nat)
    requires History(h) && i <= j < |h|
    ensures TrackersForward(h[i].trackers, h[|h| - 1].trackers) && h[i].now <= h[j].now
  {
    assert Ordered(h, i, |h| - 1) && Ordered(h, i, j);
  }

  lemma ClaimStep(h: seq<World>, names: seq<string>, i: nat, j: nat)
    requires History(h)
    ensures Keeps(h[|h| - 1], Next(h, ClaimCleanup(names, i, j)))
  {
    Now(h);
    ClaimIs(h, names, i, j);
    if i <= j < |h| {
      ClockForward(h, i, j);
      ClaimKeeps(h[|h| - 1], names, h[i].trackers, h[i].now, h[j].now);
    } else {
      ForwardReflexive(h[|h| - 1]);
    }
  }

  lemma WriteStep(h: seq<World>, i: nat, k: PointerKey, id: string)
    requires History(h) && i < |h| && (k == Request || k == Active || k == ActiveEs)
    ensures Keeps(h[|h| - 1], CreateOrBump(h[|h| - 1], k, Describe(h[i], k), id))
  {
    Now(h);
    if ReadAt(h, i, k).Some? { ReadForward(h, i, k); }
    CreateOrBumpKeeps(h[|h| - 1], k, Describe(h[i], k), id);
  }

  lemma QueueIs(h: seq<World>, i: nat)
    requires |h| > 0
    ensures Next(h, QueueRequest(i)) ==
            if i < |h| then
              CreateOrBump(h[|h| - 1], Request, Describe(h[i], Request),
                           "checkpoint_publication_request#" + h[|h| - 1].table)
            else h[|h| - 1]
  {
  }

  lemma QueueStep(h: seq<World>, i: nat)
    requires History(h)
    ensures Keeps(h[|h| - 1], Next(h, QueueRequest(i)))
  {
    Now(h);
    QueueIs(h, i);
    if i < |h| {
      WriteStep(h, i, Request, "checkpoint_publication_request#" + h[|h| - 1].table);
    } else {
      ForwardReflexive(h[|h| - 1]);
    }
  }

  lemma ClearIs(h: seq<World>, i: nat)
    requires |h| > 0
    ensures Next(h, ClearRequest(i)) ==
            if ReadAt(h, i, Request).Some? then
              CreateOrBump(h[|h| - 1], Request, Describe(h[i], Request), NO_WORK_ITEM)
            else h[|h| - 1]
  {
  }

  lemma ClearStep(h: seq<World>, i: nat)
    requires History(h)
    ensures Keeps(h[|h| - 1], Next(h, ClearRequest(i)))
  {
    Now(h);
    ClearIs(h, i);
    if ReadAt(h, i, Request).Some? {
      WriteStep(h, i, Request, NO_WORK_ITEM);
    } else {
      ForwardReflexive(h[|h| - 1]);
    }
  }

  /** A publication writes the active pointer, unless there is nothing new to publish. */
  predicate Publishes(h: seq<World>, forEs: bool, i: nat, j: nat)
    requires |h| > 0
  {
    var p := ReadAt(h, i, CommittedKey(forEs));
    p.Some? && j < |h| &&
    var name, read := Republish(h[|h| - 1].table, p.value.entityId), Describe(h[j], ActiveKey(forEs));
    name.Some? && !(read.Some? && read.value.entityId == name.value)
  }

  lemma PublishIs(h: seq<World>, forEs: bool, i: nat, j: nat)
    requires |h| > 0
    ensures Next(h, Publish(forEs, i, j)) ==
            if Publishes(h, forEs, i, j) then
              CreateOrBump(h[|h| - 1], ActiveKey(forEs), Describe(h[j], ActiveKey(forEs)),
                           Republish(h[|h| - 1].table, ReadAt(h, i, CommittedKey(forEs)).value.entityId).value)
            else h[|h| - 1]
  {
  }

  lemma PublishStep(h: seq<World>, forEs: bool, i: nat, j: nat)
    requires History(h)
    ensures Keeps(h[|h| - 1], Next(h, Publish(forEs, i, j)))
  {
    Now(h);
    PublishIs(h, forEs, i, j);
    if Publishes(h, forEs, i, j) {
      WriteStep(h, j, ActiveKey(forEs),
                Republish(h[|h| - 1].table, ReadAt(h, i, CommittedKey(forEs)).value.entityId).value);
    } else {
      ForwardReflexive(h[|h| - 1]);
    }
  }

  lemma TickIs(h: seq<World>, now: int)
    requires |h| > 0
    ensures Next(h, Tick(now)) ==
            if now >= h[|h| - 1].now then
              h[|h| - 1].(now := now)
            else h[|h| - 1]
  {
  }

  lemma TickStep(h: seq<World>, now: int)
    requires History(h)
    ensures Keeps(h[|h| - 1], Next(h, Tick(now)))
  {
    Now(h);
    TickIs(h, now);
    if now >= h[|h| - 1].now {
      TickKeeps(h[|h| - 1], now);
    } else {
      ForwardReflexive(h[|h| - 1]);
    }
  }

  lemma WaitingIs(h: seq<World>, name: string, i: nat)
    requires |h| > 0
    ensures Next(h, WaitingDone(name, i)) ==
            if i < |h| then
              MarkWaitingDone(h[|h| - 1], name, h[i].trackers)
            else h[|h| - 1]
  {
  }

  lemma WaitingStep(h: seq<World>, name: string, i: nat)
    requires History(h)
    ensures Keeps(h[|h| - 1], Next(h, WaitingDone(name, i)))
  {
    Now(h);
    WaitingIs(h, name, i);
    if i < |h| {
      WaitingDoneKeeps(h[|h| - 1], name, h[i].trackers);
    } else {
      ForwardReflexive(h[|h| - 1]);
    }
  }

  /** Every action keeps the invariant and moves the store forward. */
  lemma NextKeeps(h: seq<World>, a: Action)
    requires History(h)
    ensures Keeps(h[|h| - 1], Next(h, a))
  {
    Now(h);
    match a {
      case Tick(now) => TickStep(h, now);
      case SpeedboatAction(c, id, workId, i) => SpeedboatStep(h, c, id, workId, i);
      case IcebergAction(c, id, newId, workId, rs, i, j) => IcebergStep(h, c, id, newId, workId, rs, i, j);
      case CompactionAction(k) => RecordKeeps(h[|h| - 1], k);
      case StandardAction(names, i, j, newId, compact, k, itemId) =>
        StandardStep(h, names, i, j, newId, compact, k, itemId);
      case EsAction(exts, i, name, j, newId, k) => EsStep(h, exts, i, name, j, newId, k);
      case WaitingDone(name, i) => WaitingStep(h, name, i);
      case TakeExtension(i) => TakeStep(h, i);
      case CompleteExtension(e) => CompleteKeeps(h[|h| - 1], e);
      case TakeCompaction(i) => TakeCompactionStep(h, i);
      case ClaimCleanup(names, i, j) => ClaimStep(h, names, i, j);
      case CleanupDone(name) => FinishKeeps(h[|h| - 1], name);
      case Publish(forEs, i, j) => PublishStep(h, forEs, i, j);
      case QueueRequest(i) => QueueStep(h, i);
      case ClearRequest(i) => ClearStep(h, i);
    }
  }

  lemma HoldsMore(h: seq<World>, v: World, i: nat)
    requires History(h) && Keeps(h[|h| - 1], v) && i <= |h|
    ensures HoldsAt(h + [v], i)
  {
    if i < |h| {
      assert HoldsAt(h, i);
    } else {
      Now(h);
    }
  }

  lemma OrderedMore(h: seq<World>, v: World, i: nat, j: nat)
    requires History(h) && Keeps(h[|h| - 1], v) && i <= j <= |h|
    ensures Ordered(h + [v], i, j)
  {
    if j < |h| {
      assert Ordered(h, i, j);
    } else if i < |h| {
      assert Ordered(h, i, |h| - 1);
      ForwardTransitive(h[i], h[|h| - 1], v);
    } else {
      ForwardReflexive(v);
    }
  }

  lemma HistoryExtends(h: seq<World>, v: World)
    requires History(h) && Keeps(h[|h| - 1], v)
    ensures History(h + [v])
  {
    var g := h + [v];
    forall i | 0 <= i < |g|
      ensures HoldsAt(g, i)
    {
      HoldsMore(h, v, i);
    }
    forall i, j | 0 <= i <= j < |g|
      ensures Ordered(g, i, j)
    {
      OrderedMore(h, v, i, j);
    }
  }

  lemma NextExtends(h: seq<World>, a: Action)
    requires History(h)
    ensures History(h + [Next(h, a)])
  {
    NextKeeps(h, a);
    HistoryExtends(h, Next(h, a));
  }

  lemma StepKeeps(h: seq<World>, acts: seq<Action>)
    requires IsRun(h, acts) && |acts| > 0 && History(h[..|acts|])
    ensures History(h[..|acts|] + [h[|acts|]])
  {
    StepOf(h, acts, |acts| - 1);
    NextExtends(h[..|acts|], acts[|acts| - 1]);
  }

  lemma PrefixStep(h: seq<World>, acts: seq<Action>, n: nat, i: nat)
    requires |h| == |acts| + 1 && i < n <= |acts| && StepsTo(h, acts, i)
    ensures StepsTo(h[..n + 1], acts[..n], i)
  {
    assert h[..n + 1][..i + 1] == h[..i + 1];
  }

  lemma RunTake(h: seq<World>, acts: seq<Action>, n: nat)
    requires IsRun(h, acts) && n <= |acts|
    ensures IsRun(h[..n + 1], acts[..n])
  {
    var g, past := h[..n + 1], acts[..n];
    forall i | 0 <= i < |g|
      ensures Reached(g, past, i)
    {
      if i == 0 {
        StartOf(h, acts);
      } else {
        StepOf(h, acts, i - 1);
        PrefixStep(h, acts, n, i - 1);
      }
    }
  }

  lemma RunPrefix(h: seq<World>, acts: seq<Action>)
    requires IsRun(h, acts) && |acts| > 0
    ensures IsRun(h[..|acts|], acts[..|acts| - 1])
    ensures h == h[..|acts|] + [h[|acts|]]
  {
    RunTake(h, acts, |acts| - 1);
  }

  lemma InitHolds(h: seq<World>)
    requires |h| == 1 && StartsEmpty(h[0])
    ensures HoldsAt(h, 0)
  {
    var id :| h[0] == Init(h[0].table, id, h[0].now) && GeneratedId(id) && ColonFree(h[0].table);
    InitInv(h[0].table, id, h[0].now);
  }

  lemma InitOrdered(h: seq<World>)
    requires |h| == 1
    ensures Ordered(h, 0, 0)
  {
    ForwardReflexive(h[0]);
  }

  lemma InitHistory(h: seq<World>)
    requires |h| == 1 && HoldsAt(h, 0) && Ordered(h, 0, 0)
    ensures History(h)
  {
    forall i | 0 <= i < |h|
      ensures HoldsAt(h, i)
    {
      assert i == 0;
    }
    forall i, j | 0 <= i <= j < |h|
      ensures Ordered(h, i, j)
    {
      assert i == 0 && j == 0;
    }
  }

  /** Safety over all runs: the invariant holds in every world, and no world ever goes back on an earlier one. */
  lemma {:induction false} RunsAreSafe(h: seq<World>, acts: seq<Action>)
    requires IsRun(h, acts)
    ensures History(h)
    decreases |acts|
  {
    if |acts| == 0 {
      StartOf(h, acts);
      InitHolds(h);
      InitOrdered(h);
      InitHistory(h);
    } else {
      RunPrefix(h, acts);
      RunsAreSafe(h[..|acts|], acts[..|acts| - 1]);
      StepKeeps(h, acts);
    }
  }
}
