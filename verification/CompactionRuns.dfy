/** Compaction in runs of the checkpoint protocol: from the action that stores a work item to the Iceberg
    commit that lands it. */
module CompactionRuns {
  import opened Prelude
  import opened FileSets
  import opened Checkpoints
  import opened Descriptors
  import opened Protocol
  import opened ProtocolSafety
  import opened ProtocolRuns
  import opened ExactlyOnce
  import opened CompactionRows
  import opened CompactionLists

  // ------------------------------------- the steps that move the checkpoint

  lemma CloneIceberg(c: Checkpoint, newId: string, i: IcebergCommit, lookup: Compactions)
    requires c.extensions == map[] && CloneAndApply(c, newId, [], [i], [], lookup).Some?
    ensures ApplyIceberg(c.(id := newId), i, lookup) == Some(CloneAndApply(c, newId, [], [i], [], lookup).value.0)
  {
    assert RetainCurrent(c.(id := newId)) == c.(id := newId);
    assert ApplyIcebergs(c.(id := newId), [i], lookup) == ApplyIceberg(c.(id := newId), i, lookup);
  }

  /** A successful `commit_iceberg` moves the latest checkpoint by that commit. */
  lemma IcebergMoves(w: World, c: IcebergCommit, id: string, newId: string, workId: string, rs: seq<Replacement>,
                     p: Latest, q: Latest)
    requires Inv(w) && PointerForward(p, w.pointers[Standard]) && PointerForward(q, w.pointers[EsWork])
    requires CommitIceberg(w, c, id, newId, workId, rs, p, q) != w
    ensures var v := CommitIceberg(w, c, id, newId, workId, rs, p, q);
            ApplyIceberg(Current(w).(id := newId), c, w.compactions) == Some(Current(v))
  {
    var v := CommitIceberg(w, c, id, newId, workId, rs, p, q);
    var next := IcebergWrites(w, c, id, newId, workId, rs, p, q);
    var u := IcebergWrite(w, c, id, workId, PendingItem(w, w.pointers[EsWork]).value, next,
                          w.pointers[Standard], w.pointers[EsWork]);
    CloneIceberg(Current(w), newId, c, w.compactions);
    AddReplacementsSame(w, u, c, rs, next);
    AddReplacementsKeep(w, u, c, rs, next);
    assert Current(u) == next;
  }

  lemma CloneSpeedboats(w: World, c: Checkpoint, newId: string, names: seq<string>)
    requires c.extensions == map[] && forall i :: 0 <= i < |names| ==> names[i] in w.speedboats
    requires CloneAndApply(c, newId, CommitsNamed(w, names), [], [], w.compactions).Some?
    ensures Replay(w, c.(id := newId), SpeedboatEntries(names))
            == Some(CloneAndApply(c, newId, CommitsNamed(w, names), [], [], w.compactions).value.0)
  {
    assert RetainCurrent(c.(id := newId)) == c.(id := newId);
    ReplaySpeedboats(w, c.(id := newId), [], names);
    assert [] + SpeedboatEntries(names) == SpeedboatEntries(names);
  }

  /** A successful checkpoint update moves it by the named commits. */
  lemma StandardMoves(w: World, names: seq<string>, read: Trackers, p: Latest, newId: string, compact: bool, q: Latest,
                      itemId: string)
    requires Inv(w) && PointerForward(p, w.pointers[Standard])
    requires UpdateStandard(w, names, read, p, newId, compact, q, itemId) != w
    ensures var v := UpdateStandard(w, names, read, p, newId, compact, q, itemId);
            Replay(w, Current(w).(id := newId), SpeedboatEntries(names)) == Some(Current(v))
  {
    var next := StandardWrites(w, names, read, p, newId, compact, q, itemId);
    CloneSpeedboats(w, Current(w), newId, names);
    assert Current(StandardWrite(w, names, next, w.pointers[Standard])) == next;
  }

  lemma NotMoved(w: World, v: World)
    requires Inv(w) && Forward(w, v) && !MovesStandard(w, v)
    ensures Current(v) == Current(w)
  {
  }

  // ------------------------------------------------ an item's files stay there

  /** Whatever the action applied to the latest checkpoint removes none of the item's files. */
  predicate SparesStep(w: World, v: World, a: Action, item: CompactionWorkItem) {
    MovesStandard(w, v) ==> forall i :: 0 <= i < |Entries(a)| ==> Spares(v, Entries(a)[i], item)
  }

  lemma StandardChanges(w: World, names: seq<string>, read: Trackers, p: Latest, newId: string, compact: bool,
                        q: Latest, itemId: string)
    requires Inv(w) && PointerForward(p, w.pointers[Standard])
    requires UpdateStandard(w, names, read, p, newId, compact, q, itemId) != w
    ensures var v := UpdateStandard(w, names, read, p, newId, compact, q, itemId);
            && v.speedboats == w.speedboats && v.compactions == w.compactions && MovesStandard(w, v)
            && (v.compactionItems == w.compactionItems
                || (itemId !in w.compactionItems
                    && v.compactionItems == w.compactionItems[itemId := ItemFromCheckpoint(Current(v))]))
  {
    var next := StandardWrites(w, names, read, p, newId, compact, q, itemId);
  }

  /** What a step that moves the latest checkpoint does to it. */
  ghost predicate Moves(w: World, v: World, a: Action) {
    && (a.StandardAction? || a.IcebergAction?) && MovesStandard(w, v)
    && v.speedboats == w.speedboats && v.compactions == w.compactions
    && (a.IcebergAction? ==>
          && a.commitId in v.icebergs && v.icebergs[a.commitId] == a.iceberg
          && v.compactionItems == w.compactionItems
          && ApplyIceberg(Current(w).(id := a.newId), a.iceberg, w.compactions) == Some(Current(v)))
    && (a.StandardAction? ==>
          && Replay(w, Current(w).(id := a.newId), SpeedboatEntries(a.names)) == Some(Current(v))
          && (v.compactionItems == w.compactionItems
              || (a.itemId !in w.compactionItems
                  && v.compactionItems == w.compactionItems[a.itemId := ItemFromCheckpoint(Current(v))])))
  }

  lemma IcebergStepMoves(h: seq<World>, c: IcebergCommit, id: string, newId: string, workId: string,
                         rs: seq<Replacement>, i: nat, j: nat)
    requires History(h) && Next(h, IcebergAction(c, id, newId, workId, rs, i, j)) != h[|h| - 1]
    ensures var a := IcebergAction(c, id, newId, workId, rs, i, j); Moves(h[|h| - 1], Next(h, a), a)
  {
    IcebergIs(h, c, id, newId, workId, rs, i, j);
    Now(h);
    ReadForward(h, i, Standard);
    ReadForward(h, j, EsWork);
    IcebergChanges(h[|h| - 1], c, id, newId, workId, rs, ReadAt(h, i, Standard).value, ReadAt(h, j, EsWork).value);
    IcebergMoves(h[|h| - 1], c, id, newId, workId, rs, ReadAt(h, i, Standard).value, ReadAt(h, j, EsWork).value);
  }

  lemma StandardStepMoves(h: seq<World>, names: seq<string>, i: nat, j: nat, newId: string, compact: bool, k: nat,
                          itemId: string)
    requires History(h) && Next(h, StandardAction(names, i, j, newId, compact, k, itemId)) != h[|h| - 1]
    ensures var a := StandardAction(names, i, j, newId, compact, k, itemId); Moves(h[|h| - 1], Next(h, a), a)
  {
    StandardIs(h, names, i, j, newId, compact, k, itemId);
    Now(h);
    ReadForward(h, j, Standard);
    var p, q := ReadAt(h, j, Standard).value, ReadAt(h, k, CompactionWork).value;
    StandardChanges(h[|h| - 1], names, h[i].trackers, p, newId, compact, q, itemId);
    StandardMoves(h[|h| - 1], names, h[i].trackers, p, newId, compact, q, itemId);
  }

  lemma MoveKeepsItem(w: World, v: World, a: Action, item: CompactionWorkItem)
    requires Moves(w, v, a) && StillThere(item, Current(w)) && SparesStep(w, v, a, item)
    ensures StillThere(item, Current(v))
  {
    if a.IcebergAction? {
      assert Entries(a)[0] == Iceberg(a.commitId);
      IcebergSpares(item, Current(w).(id := a.newId), a.iceberg, w.compactions);
    } else {
      var log := SpeedboatEntries(a.names);
      forall i | 0 <= i < |log|
        ensures Spares(w, log[i], item)
      {
        assert log[i] == Entries(a)[i] == Speedboat(a.names[i]);
      }
      CommitsSpare(w, item, Current(w).(id := a.newId), log);
    }
  }

  lemma OthersKeepCurrent(h: seq<World>, a: Action)
    requires History(h) && !a.StandardAction? && !a.IcebergAction?
    ensures Current(Next(h, a)) == Current(h[|h| - 1])
  {
    Now(h);
    NextKeeps(h, a);
    if a.SpeedboatAction? {
      SpeedboatIs(h, a.commit, a.commitId, a.workId, a.esWorkAt);
      if ReadAt(h, a.esWorkAt, EsWork).Some? {
        SpeedboatStays(h[|h| - 1], a.commit, a.commitId, a.workId, ReadAt(h, a.esWorkAt, EsWork).value);
      }
    } else {
      OthersStay(h, a);
    }
    NotMoved(h[|h| - 1], Next(h, a));
  }

  /** A step moves the latest checkpoint by its commits or leaves it alone. */
  lemma StepMoves(h: seq<World>, a: Action)
    requires History(h)
    ensures Moves(h[|h| - 1], Next(h, a), a) || Current(Next(h, a)) == Current(h[|h| - 1])
  {
    if Next(h, a) != h[|h| - 1] {
      match a {
        case IcebergAction(c, id, newId, workId, rs, i, j) => IcebergStepMoves(h, c, id, newId, workId, rs, i, j);
        case StandardAction(names, i, j, newId, compact, k, itemId) =>
          StandardStepMoves(h, names, i, j, newId, compact, k, itemId);
        case _ => OthersKeepCurrent(h, a);
      }
    }
  }

  lemma StepKeepsItem(w: World, v: World, a: Action, item: CompactionWorkItem)
    requires Moves(w, v, a) || Current(v) == Current(w)
    requires StillThere(item, Current(w)) && SparesStep(w, v, a, item)
    ensures StillThere(item, Current(v))
  {
    if Moves(w, v, a) { MoveKeepsItem(w, v, a, item); }
  }

  // ------------------------------------------------------ where items come from

  predicate SameItems(w: World, v: World) { v.compactionItems == w.compactionItems }

  lemma EsSameItems(w: World, exts: seq<string>, readExts: Trackers, name: string, readWaiting: Trackers, newId: string,
                    p: Latest)
    ensures SameItems(w, UpdateEs(w, exts, readExts, name, readWaiting, newId, p))
  {
  }

  lemma SpeedboatSameItems(w: World, c: SpeedboatCommit, id: string, workId: string, read: Latest)
    ensures SameItems(w, CommitSpeedboat(w, c, id, workId, read))
  {
  }

  lemma WriteSameItems(w: World, k: PointerKey, read: Option<Latest>, id: string)
    ensures SameItems(w, CreateOrBump(w, k, read, id))
  {
  }

  lemma PublicationKeepsItems(h: seq<World>, a: Action)
    requires |h| > 0 && (a.Publish? || a.QueueRequest? || a.ClearRequest?)
    ensures SameItems(h[|h| - 1], Next(h, a))
  {
    var w := h[|h| - 1];
    match a {
      case Publish(forEs, i, j) =>
        PublishIs(h, forEs, i, j);
        if Publishes(h, forEs, i, j) {
          WriteSameItems(w, ActiveKey(forEs), Describe(h[j], ActiveKey(forEs)),
                         Republish(w.table, ReadAt(h, i, CommittedKey(forEs)).value.entityId).value);
        }
      case QueueRequest(i) =>
        QueueIs(h, i);
        if i < |h| { WriteSameItems(w, Request, Describe(h[i], Request), "checkpoint_publication_request#" + w.table); }
      case ClearRequest(i) =>
        ClearIs(h, i);
        if ReadAt(h, i, Request).Some? { WriteSameItems(w, Request, Describe(h[i], Request), NO_WORK_ITEM); }
    }
  }

  lemma WorkKeepsItems(h: seq<World>, a: Action)
    requires |h| > 0 && (a.SpeedboatAction? || a.EsAction? || a.TakeExtension? || a.TakeCompaction? || a.ClaimCleanup?)
    ensures SameItems(h[|h| - 1], Next(h, a))
  {
    var w := h[|h| - 1];
    match a {
      case SpeedboatAction(c, id, workId, i) =>
        SpeedboatIs(h, c, id, workId, i);
        if ReadAt(h, i, EsWork).Some? { SpeedboatSameItems(w, c, id, workId, ReadAt(h, i, EsWork).value); }
      case EsAction(exts, i, name, j, newId, k) =>
        EsIs(h, exts, i, name, j, newId, k);
        if i < |h| && j < |h| && ReadAt(h, k, Es).Some? {
          EsSameItems(w, exts, h[i].trackers, name, h[j].trackers, newId, ReadAt(h, k, Es).value);
        }
      case TakeExtension(i) => TakeIs(h, i);
      case TakeCompaction(i) => TakeCompactionIs(h, i);
      case ClaimCleanup(names, i, j) => ClaimIs(h, names, i, j);
    }
  }

  lemma OthersKeepItems(h: seq<World>, a: Action)
    requires |h| > 0 && !a.StandardAction? && !a.IcebergAction?
    ensures SameItems(h[|h| - 1], Next(h, a))
  {
    match a {
      case Tick(now) => TickIs(h, now);
      case CompactionAction(k) =>
      case WaitingDone(name, i) => WaitingIs(h, name, i);
      case CompleteExtension(e) =>
      case CleanupDone(name) =>
      case _ =>
        if a.Publish? || a.QueueRequest? || a.ClearRequest? {
          PublicationKeepsItems(h, a);
        } else {
          WorkKeepsItems(h, a);
        }
    }
  }

  /** An item is stored together with the checkpoint that it was made from, and is never changed. */
  ghost predicate ItemsFollow(w: World, v: World) {
    || SameItems(w, v)
    || exists id :: id !in w.compactionItems
                    && v.compactionItems == w.compactionItems[id := ItemFromCheckpoint(Current(v))]
  }

  lemma ItemsStep(h: seq<World>, a: Action)
    requires History(h)
    ensures ItemsFollow(h[|h| - 1], Next(h, a))
  {
    if Next(h, a) != h[|h| - 1] {
      match a {
        case IcebergAction(c, id, newId, workId, rs, i, j) => IcebergStepMoves(h, c, id, newId, workId, rs, i, j);
        case StandardAction(names, i, j, newId, compact, k, itemId) =>
          StandardStepMoves(h, names, i, j, newId, compact, k, itemId);
        case _ => OthersKeepItems(h, a);
      }
    }
  }

  /** World `s` is the first one that holds the item. */
  predicate Made(h: seq<World>, s: nat, itemId: string) {
    0 < s < |h| && itemId !in h[s - 1].compactionItems && itemId in h[s].compactionItems
  }

  lemma RunItems(h: seq<World>, acts: seq<Action>, n: nat)
    requires IsRun(h, acts) && n < |acts|
    ensures ItemsFollow(h[n], h[n + 1])
  {
    RunTake(h, acts, n);
    RunsAreSafe(h[..n + 1], acts[..n]);
    StepOf(h, acts, n);
    ItemsStep(h[..n + 1], acts[n]);
  }

  /** A stored item is the content of the checkpoint that was the latest when it was stored. */
  lemma {:induction false} StoredItem(h: seq<World>, acts: seq<Action>, s: nat, n: nat, itemId: string)
    requires IsRun(h, acts) && Made(h, s, itemId) && s <= n < |h|
    ensures itemId in h[n].compactionItems && h[n].compactionItems[itemId] == ItemFromCheckpoint(Current(h[s]))
    decreases n
  {
    RunItems(h, acts, n - 1);
    if n != s { StoredItem(h, acts, s, n - 1, itemId); }
  }

  /** Every stored item was made at some point of the run. */
  lemma {:induction false} ItemMade(h: seq<World>, acts: seq<Action>, n: nat, itemId: string) returns (s: nat)
    requires IsRun(h, acts) && n < |h| && itemId in h[n].compactionItems
    ensures Made(h, s, itemId) && s <= n
    decreases n
  {
    StartOf(h, acts);
    if itemId in h[n - 1].compactionItems { s := ItemMade(h, acts, n - 1, itemId); } else { s := n; }
  }

  // ------------------------------------------------------------- the theorem

  lemma RunMoves(h: seq<World>, acts: seq<Action>, n: nat)
    requires IsRun(h, acts) && n < |acts|
    ensures Moves(h[n], h[n + 1], acts[n]) || Current(h[n + 1]) == Current(h[n])
  {
    RunTake(h, acts, n);
    RunsAreSafe(h[..n + 1], acts[..n]);
    StepOf(h, acts, n);
    StepMoves(h[..n + 1], acts[n]);
  }

  lemma ItemThere(w: World)
    requires Inv(w)
    ensures StillThere(ItemFromCheckpoint(Current(w)), Current(w))
  {
    assert GoodCheckpoint(w.table, Current(w));
  }

  /** From world `s` to world `n`, nothing removed a file of the item. */
  predicate SparedFrom(h: seq<World>, acts: seq<Action>, s: nat, n: nat, item: CompactionWorkItem)
    requires |h| == |acts| + 1 && n <= |acts|
  {
    forall k :: s <= k < n ==> SparesStep(h[k], h[k + 1], acts[k], item)
  }

  lemma {:induction false} StaysThere(h: seq<World>, acts: seq<Action>, s: nat, n: nat, item: CompactionWorkItem)
    requires IsRun(h, acts) && s <= n < |h| && StillThere(item, Current(h[s])) && SparedFrom(h, acts, s, n, item)
    ensures StillThere(item, Current(h[n]))
    decreases n
  {
    if s != n {
      StaysThere(h, acts, s, n - 1, item);
      RunMoves(h, acts, n - 1);
      assert SparesStep(h[n - 1], h[n], acts[n - 1], item);
      StepKeepsItem(h[n - 1], h[n], acts[n - 1], item);
    }
  }

  /** Action `n` lands an Iceberg commit. */
  predicate Landing(h: seq<World>, acts: seq<Action>, n: nat) {
    |h| == |acts| + 1 && n < |acts| && acts[n].IcebergAction? && h[n + 1] != h[n]
  }

  /** In every run and for every Iceberg commit that lands, whatever its list holds or lacks and whatever compactions
      it names: the visible rows of the latest checkpoint stay the same exactly when it is balanced for every row. */
  lemma IcebergInRuns(h: seq<World>, acts: seq<Action>, n: nat, f: Files)
    requires IsRun(h, acts) && Landing(h, acts, n)
    ensures SameView(f, Current(h[n]), f, Current(h[n + 1]))
            <==> Balanced(f, Current(h[n]), acts[n].iceberg, h[n].compactions)
  {
    Lands(h, acts, n);
    ListsInRuns(h, acts, n);
    var c, i := Current(h[n]), acts[n].iceberg;
    var e := c.(id := acts[n].newId);
    LandingBalanced(f, e, i, h[n].compactions);
    SameSeen(f, f, c, e, Current(h[n + 1]));
    SameBalance(f, c, e, i, h[n].compactions);
  }

  /** Action `n` lands the Iceberg commit of a stored item, over files `f` to which the job adds its own.  Its list
      has the new parquet file; it may have other new files, or lack some. */
  ghost predicate LandsItem(h: seq<World>, acts: seq<Action>, n: nat, itemId: string, j: Job, f: Files, g: Files) {
    && Landing(h, acts, n) && acts[n].iceberg == j.iceberg
    && itemId in h[n].compactionItems && j.item == h[n].compactionItems[itemId]
    && Brings(j) && Writes(j, f, g, Current(h[n]))
  }

  /** Nothing but the job changed the list since the checkpoint, and the commit names no other files. */
  ghost predicate Undisturbed(h: seq<World>, n: nat, j: Job, f: Files)
    requires n < |h|
  {
    Announces(j, Current(h[n]), h[n].compactions) && j.remaining <= AllKeys(f, j.item.deleteFiles)
  }

  /** In every run, whatever else was committed since the item was made and whatever list its compactor loaded: when
      its Iceberg commit lands, the visible rows of the latest checkpoint stay the same exactly when it is balanced
      for every row.  If its list is the current one with the new file, that is when it is harmless to every row. */
  lemma CompactionInRuns(h: seq<World>, acts: seq<Action>, n: nat, itemId: string, j: Job, f: Files, g: Files)
    requires IsRun(h, acts) && LandsItem(h, acts, n, itemId, j, f, g)
    ensures SameView(f, Current(h[n]), g, Current(h[n + 1])) <==> JobBalanced(j, f, Current(h[n]), h[n].compactions)
    ensures Undisturbed(h, n, j, f) ==>
              (SameView(f, Current(h[n]), g, Current(h[n + 1])) <==> Harmless(j, f, Current(h[n])))
  {
    Lands(h, acts, n);
    ListsInRuns(h, acts, n);
    AnyListLands(j, f, g, Current(h[n]), acts[n].newId, Current(h[n + 1]), h[n].compactions);
    if Undisturbed(h, n, j, f) {
      UniqueInRuns(h, acts, n, itemId, j);
      RowsLand(j, f, g, Current(h[n]), acts[n].newId, Current(h[n + 1]), h[n].compactions);
    }
  }

  /** If moreover no other commit has removed the item's files since it was made, it is harmless exactly when the
      item's visible rows have ids. */
  lemma SparedCompaction(h: seq<World>, acts: seq<Action>, s: nat, n: nat, itemId: string, j: Job, f: Files, g: Files)
    requires IsRun(h, acts) && LandsItem(h, acts, n, itemId, j, f, g) && Undisturbed(h, n, j, f)
    requires Made(h, s, itemId) && s <= n && SparedFrom(h, acts, s, n, j.item)
    requires RemainingBounded(j, f) && UniqueKeys(TableRows(f, Current(h[n])))
    ensures SameView(f, Current(h[n]), g, Current(h[n + 1])) <==> IdsPresent(j, f, Current(h[n]))
  {
    CompactionInRuns(h, acts, n, itemId, j, f, g);
    ItemLands(h, acts, s, n, itemId, j.item);
    HarmlessWhenThere(j, f, Current(h[n]), h[n].compactions);
  }

  lemma CurrentLists(w: World)
    requires Inv(w)
    ensures UniquePaths(IcebergFiles(Current(w)))
  {
    assert GoodCheckpoint(w.table, Current(w));
  }

  lemma ListsInRuns(h: seq<World>, acts: seq<Action>, n: nat)
    requires IsRun(h, acts) && Landing(h, acts, n)
    ensures UniqueLists(Current(h[n]), acts[n].iceberg)
  {
    RunsAreSafe(h, acts);
    assert HoldsAt(h, n) && HoldsAt(h, n + 1);
    CurrentLists(h[n]);
    CurrentLists(h[n + 1]);
    Lands(h, acts, n);
    LandedShape(Current(h[n]).(id := acts[n].newId), acts[n].iceberg, h[n].compactions);
  }

  lemma UniqueItem(w: World)
    requires Inv(w)
    ensures UniquePaths(SpeedboatFiles(Current(w)))
  {
    assert GoodCheckpoint(w.table, Current(w));
  }

  lemma UniqueInRuns(h: seq<World>, acts: seq<Action>, n: nat, itemId: string, j: Job)
    requires IsRun(h, acts) && n < |h| && itemId in h[n].compactionItems && j.item == h[n].compactionItems[itemId]
    ensures UniqueFiles(j, Current(h[n]))
  {
    var s := ItemMade(h, acts, n, itemId);
    StoredItem(h, acts, s, n, itemId);
    RunsAreSafe(h, acts);
    assert HoldsAt(h, s) && HoldsAt(h, n);
    UniqueItem(h[s]);
    UniqueItem(h[n]);
  }

  predicate SameFiles(c: Checkpoint, e: Checkpoint) {
    e.iceberg == c.iceberg && e.speedboat == c.speedboat && e.deletes == c.deletes
  }

  lemma SameAnnounced(j: Job, c: Checkpoint, e: Checkpoint, lookup: Compactions)
    requires SameFiles(c, e) && Announces(j, c, lookup)
    ensures Announces(j, e, lookup)
  {
  }

  lemma SameWritten(j: Job, f: Files, g: Files, c: Checkpoint, e: Checkpoint)
    requires SameFiles(c, e) && Writes(j, f, g, c)
    ensures Writes(j, f, g, e)
  {
  }

  lemma SameSeen(f: Files, g: Files, c: Checkpoint, e: Checkpoint, d: Checkpoint)
    requires SameFiles(c, e)
    ensures SameView(f, e, g, d) <==> SameView(f, c, g, d)
  {
    assert forall r :: Visible(f, e, r) == Visible(f, c, r);
  }

  lemma SameHarm(j: Job, f: Files, c: Checkpoint, e: Checkpoint)
    requires SameFiles(c, e)
    ensures Harmless(j, f, e) <==> Harmless(j, f, c)
  {
    forall r
      ensures HarmlessTo(j, f, e, r) <==> HarmlessTo(j, f, c, r)
    {
      SameHarmTo(j, f, c, e, r);
    }
  }

  lemma SameLists(c: Checkpoint, e: Checkpoint)
    requires SameFiles(c, e)
    ensures IcebergFiles(e) == IcebergFiles(c) && SpeedboatFiles(e) == SpeedboatFiles(c)
    ensures DeleteFiles(e) == DeleteFiles(c)
  {
  }

  lemma SameParts(j: Job, f: Files, c: Checkpoint, e: Checkpoint)
    requires SameFiles(c, e)
    ensures RestRows(j, f, e) == RestRows(j, f, c) && TableRows(f, e) == TableRows(f, c)
    ensures There(j.item, e) == There(j.item, c) && Gone(j.item, e) == Gone(j.item, c)
  {
    SameLists(c, e);
  }

  lemma SameHides(j: Job, f: Files, c: Checkpoint, e: Checkpoint, k: string)
    requires SameFiles(c, e)
    ensures Hidden(f, e, k) == Hidden(f, c, k) && HidesAfter(j, f, e, k) == HidesAfter(j, f, c, k)
  {
    SameLists(c, e);
  }

  lemma SameHarmTo(j: Job, f: Files, c: Checkpoint, e: Checkpoint, r: Row)
    requires SameFiles(c, e)
    ensures HarmlessTo(j, f, e, r) <==> HarmlessTo(j, f, c, r)
  {
    SameParts(j, f, c, e);
    SameHides(j, f, c, e, r.key);
  }

  lemma SameBalance(f: Files, c: Checkpoint, e: Checkpoint, i: IcebergCommit, lookup: Compactions)
    requires SameFiles(c, e)
    ensures Balanced(f, e, i, lookup) <==> Balanced(f, c, i, lookup)
  {
    forall r
      ensures BalancedFor(f, e, i, lookup, r) <==> BalancedFor(f, c, i, lookup, r)
    {
      SameBalanceFor(f, c, e, i, lookup, r);
    }
  }

  lemma SameMoves(f: Files, c: Checkpoint, e: Checkpoint, i: IcebergCommit, lookup: Compactions)
    requires SameFiles(c, e)
    ensures StayingRows(f, e, i, lookup) == StayingRows(f, c, i, lookup)
    ensures LeavingRows(f, e, i, lookup) == LeavingRows(f, c, i, lookup)
    ensures NewFiles(e, i) == NewFiles(c, i)
  {
    SameLists(c, e);
  }

  lemma SameStaysHidden(f: Files, c: Checkpoint, e: Checkpoint, i: IcebergCommit, lookup: Compactions, k: string)
    requires SameFiles(c, e)
    ensures Hidden(f, e, k) == Hidden(f, c, k) && StaysHidden(f, e, i, lookup, k) == StaysHidden(f, c, i, lookup, k)
  {
    SameLists(c, e);
    assert forall x :: Deletes(e, i, x) == Deletes(c, i, x);
  }

  lemma SameBalanceFor(f: Files, c: Checkpoint, e: Checkpoint, i: IcebergCommit, lookup: Compactions, r: Row)
    requires SameFiles(c, e)
    ensures BalancedFor(f, e, i, lookup, r) <==> BalancedFor(f, c, i, lookup, r)
  {
    SameMoves(f, c, e, i, lookup);
    SameStaysHidden(f, c, e, i, lookup, r.key);
  }

  lemma SameJobBalance(j: Job, f: Files, c: Checkpoint, e: Checkpoint, lookup: Compactions)
    requires SameFiles(c, e)
    ensures JobBalanced(j, f, e, lookup) <==> JobBalanced(j, f, c, lookup)
  {
    forall r
      ensures JobBalancedFor(j, f, e, lookup, r) <==> JobBalancedFor(j, f, c, lookup, r)
    {
      SameJobBalanceFor(j, f, c, e, lookup, r);
    }
  }

  lemma SameHidesLater(j: Job, f: Files, c: Checkpoint, e: Checkpoint, lookup: Compactions, k: string)
    requires SameFiles(c, e)
    ensures Hidden(f, e, k) == Hidden(f, c, k) && HidesLater(j, f, e, lookup, k) == HidesLater(j, f, c, lookup, k)
  {
    SameLists(c, e);
  }

  lemma SameJobBalanceFor(j: Job, f: Files, c: Checkpoint, e: Checkpoint, lookup: Compactions, r: Row)
    requires SameFiles(c, e)
    ensures JobBalancedFor(j, f, e, lookup, r) <==> JobBalancedFor(j, f, c, lookup, r)
  {
    SameMoves(f, c, e, j.iceberg, lookup);
    SameHidesLater(j, f, c, e, lookup, r.key);
  }

  lemma AnyListLands(j: Job, f: Files, g: Files, c: Checkpoint, newId: string, d: Checkpoint, lookup: Compactions)
    requires ApplyIceberg(c.(id := newId), j.iceberg, lookup) == Some(d)
    requires Brings(j) && Writes(j, f, g, c) && UniquePaths(IcebergFiles(c))
    ensures SameView(f, c, g, d) <==> JobBalanced(j, f, c, lookup)
  {
    var e := c.(id := newId);
    SameWritten(j, f, g, c, e);
    SameSeen(f, g, c, e, d);
    SameJobBalance(j, f, c, e, lookup);
    CompactionBalanced(j, f, g, e, lookup);
  }

  /** The id of a checkpoint does not matter to its rows. */
  lemma RowsLand(j: Job, f: Files, g: Files, c: Checkpoint, newId: string, d: Checkpoint, lookup: Compactions)
    requires ApplyIceberg(c.(id := newId), j.iceberg, lookup) == Some(d)
    requires Announces(j, c, lookup) && Writes(j, f, g, c)
    requires UniqueFiles(j, c) && j.remaining <= AllKeys(f, j.item.deleteFiles)
    ensures SameView(f, c, g, d) <==> Harmless(j, f, c)
  {
    var e := c.(id := newId);
    SameAnnounced(j, c, e, lookup);
    SameWritten(j, f, g, c, e);
    SameSeen(f, g, c, e, d);
    SameHarm(j, f, c, e);
    CompactionHarmless(j, f, g, e, lookup);
  }

  lemma ItemLands(h: seq<World>, acts: seq<Action>, s: nat, n: nat, itemId: string, item: CompactionWorkItem)
    requires IsRun(h, acts) && Made(h, s, itemId) && s <= n < |h|
    requires itemId in h[n].compactionItems && item == h[n].compactionItems[itemId] && SparedFrom(h, acts, s, n, item)
    ensures StillThere(item, Current(h[n]))
  {
    StoredItem(h, acts, s, n, itemId);
    RunsAreSafe(h, acts);
    assert HoldsAt(h, s);
    ItemThere(h[s]);
    StaysThere(h, acts, s, n, item);
  }

  lemma Lands(h: seq<World>, acts: seq<Action>, n: nat)
    requires IsRun(h, acts) && n < |acts| && acts[n].IcebergAction? && h[n + 1] != h[n]
    ensures ApplyIceberg(Current(h[n]).(id := acts[n].newId), acts[n].iceberg, h[n].compactions)
            == Some(Current(h[n + 1]))
  {
    RunTake(h, acts, n);
    RunsAreSafe(h[..n + 1], acts[..n]);
    StepOf(h, acts, n);
    var a := acts[n];
    IcebergStepMoves(h[..n + 1], a.iceberg, a.commitId, a.newId, a.workId, a.replacements, a.standardAt, a.esWorkAt);
  }
}
