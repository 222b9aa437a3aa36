/** Safety theorems about whole runs of the checkpoint protocol. */
module RunTheorems {
  import opened Prelude
  import opened FileSets
  import opened Checkpoints
  import opened Descriptors
  import opened Protocol
  import opened ProtocolSafety
  import opened ProtocolRuns
  import ExactlyOnce

  // ------------------------------------------------------------ stored state

  /** Every checkpoint ever stored is well formed, and no stored entity is ever changed. */
  lemma StoredCheckpointsStay(h: seq<World>, acts: seq<Action>, i: nat, j: nat, name: string)
    requires IsRun(h, acts) && i <= j < |h| && name in h[i].checkpoints
    ensures WellFormedCheckpoint(h[i].checkpoints[name])
    ensures name in h[j].checkpoints && h[j].checkpoints[name] == h[i].checkpoints[name]
  {
    RunsAreSafe(h, acts);
    assert HoldsAt(h, i) && Ordered(h, i, j);
  }

  // --------------------------------------------------------- indexing work

  /** No indexing work is lost: a data file of a stored commit is in the pending "es" work item or in one
      that was handed out, and stays so. */
  lemma NoFileLost(h: seq<World>, acts: seq<Action>, i: nat, j: nat, p: string)
    requires IsRun(h, acts) && i <= j < |h|
    requires || (exists id :: id in h[i].speedboats && p in DataPaths(h[i].speedboats[id].typeFiles))
             || (exists id :: id in h[i].icebergs && p in PathSet(h[i].icebergs[id].metadata.files))
    ensures EsWork in h[j].pointers && Scheduled(h[j].pointers[EsWork].entityId, h[j].workItems, h[j].trackers, p)
  {
    RunsAreSafe(h, acts);
    assert HoldsAt(h, j) && Ordered(h, i, j);
    if id :| id in h[i].speedboats && p in DataPaths(h[i].speedboats[id].typeFiles) {
      assert id in h[j].speedboats;
    } else {
      var id :| id in h[i].icebergs && p in PathSet(h[i].icebergs[id].metadata.files);
      assert id in h[j].icebergs;
    }
  }

  /** The work item that an action hands to a worker. */
  function HandedOut(h: seq<World>, a: Action): Option<TrackerKey>
    requires |h| > 0
  {
    var w := h[|h| - 1];
    match a
    case TakeExtension(i) =>
      (match ReadAt(h, i, EsWork)
       case Some(p) => if TakeExtensionItem(w, p) != w then Some(TrackerKey(EsLease, p.entityId)) else None
       case None => None)
    case TakeCompaction(i) =>
      (match ReadAt(h, i, CompactionWork)
       case Some(p) => if TakeCompactionItem(w, p) != w then Some(TrackerKey(CompactionLease, p.entityId)) else None
       case None => None)
    case _ => None
  }

  lemma HandedOutLeaves(h: seq<World>, a: Action)
    requires |h| > 0 && HandedOut(h, a).Some?
    ensures HandedOut(h, a).value !in h[|h| - 1].trackers
    ensures HandedOut(h, a).value in Next(h, a).trackers
  {
  }

  lemma HandedOutStep(h: seq<World>, acts: seq<Action>, i: nat)
    requires IsRun(h, acts) && i < |acts| && HandedOut(h[..i + 1], acts[i]).Some?
    ensures HandedOut(h[..i + 1], acts[i]).value !in h[i].trackers
    ensures HandedOut(h[..i + 1], acts[i]).value in h[i + 1].trackers
  {
    StepOf(h, acts, i);
    HandedOutLeaves(h[..i + 1], acts[i]);
  }

  /** No work item id is handed out twice, however stale the pointers that the two workers read. */
  lemma NeverHandedOutTwice(h: seq<World>, acts: seq<Action>, i: nat, j: nat)
    requires IsRun(h, acts) && i < j < |acts|
    requires HandedOut(h[..i + 1], acts[i]).Some? && HandedOut(h[..j + 1], acts[j]).Some?
    ensures HandedOut(h[..i + 1], acts[i]) != HandedOut(h[..j + 1], acts[j])
  {
    HandedOutStep(h, acts, i);
    HandedOutStep(h, acts, j);
    LaterTracker(h, acts, i + 1, j, HandedOut(h[..i + 1], acts[i]).value);
  }

  // ---------------------------------------------------------------- frontier

  ghost predicate EsLater(w: World, v: World) {
    && Es in w.pointers && Es in v.pointers
    && var p, q := w.pointers[Es], v.pointers[Es];
       && q.entityId in v.checkpoints && CoveredByLookup(v.checkpoints[q.entityId], "es")
       && (p != q ==> p.version < q.version && Less(p.entityId, q.entityId))
  }

  lemma EsMoves(w: World, v: World)
    requires Es in w.pointers && Inv(v) && Forward(w, v)
    ensures EsLater(w, v)
  {
    CoverageDefinitionsAgree(v.checkpoints[v.pointers[Es].entityId], "es");
  }

  /** The "es" pointer always names a fully covered checkpoint of the table, and each move strictly increases its
      name. */
  lemma EsFrontier(h: seq<World>, acts: seq<Action>, i: nat, j: nat)
    requires IsRun(h, acts) && i <= j < |h|
    ensures EsLater(h[i], h[j])
  {
    RunsAreSafe(h, acts);
    assert HoldsAt(h, i) && HoldsAt(h, j) && Ordered(h, i, j);
    EsMoves(h[i], h[j]);
  }

  /** A committed pointer's name survives being flattened to an id and rebuilt. */
  lemma CommittedRepublishes(w: World, forEs: bool)
    requires Inv(w)
    ensures Republish(w.table, w.pointers[CommittedKey(forEs)].entityId)
            == Some(w.pointers[CommittedKey(forEs)].entityId)
  {
    var name := w.pointers[CommittedKey(forEs)].entityId;
    var c := w.checkpoints[name];
    assert GoodCheckpoint(w.table, c);
    assert name == CheckpointName(c);
    RoundTrip(Descriptor(c.tableName, c.id, c.originalId));
    RepublishSame(w.table, name);
  }

  /** The pointer was once the committed one of the same kind. */
  ghost predicate OnceCommitted(h: seq<World>, forEs: bool, name: string) {
    exists i :: 0 <= i < |h| && CommittedKey(forEs) in h[i].pointers
                && h[i].pointers[CommittedKey(forEs)].entityId == name
  }

  ghost predicate ActiveGood(h: seq<World>, w: World, forEs: bool) {
    ActiveKey(forEs) in w.pointers ==> OnceCommitted(h, forEs, w.pointers[ActiveKey(forEs)].entityId)
  }

  /** Only publishing moves an active pointer. */
  predicate SameActive(w: World, v: World) {
    Describe(v, Active) == Describe(w, Active) && Describe(v, ActiveEs) == Describe(w, ActiveEs)
  }

  lemma IcebergSameActive(w: World, c: IcebergCommit, id: string, newId: string, workId: string, rs: seq<Replacement>,
                          p: Latest, q: Latest)
    requires Inv(w) && PointerForward(p, w.pointers[Standard]) && PointerForward(q, w.pointers[EsWork])
    ensures SameActive(w, CommitIceberg(w, c, id, newId, workId, rs, p, q))
  {
    if CommitIceberg(w, c, id, newId, workId, rs, p, q) != w {
      ExactlyOnce.IcebergChanges(w, c, id, newId, workId, rs, p, q);
    }
  }

  lemma StandardShape(w: World, names: seq<string>, read: Trackers, p: Latest, newId: string,
                      compact: bool, q: Latest, itemId: string) returns (next: Checkpoint)
    requires UpdateStandard(w, names, read, p, newId, compact, q, itemId) != w
    ensures var v, u := UpdateStandard(w, names, read, p, newId, compact, q, itemId), StandardWrite(w, names, next, p);
            v == u || v == CompactionItemWrite(u, itemId, next, q)
  {
    next := CloneAndApply(w.checkpoints[p.entityId], newId, CommitsNamed(w, names), [], [], w.compactions).value.0;
  }

  lemma WriteSameActive(w: World, names: seq<string>, next: Checkpoint, p: Latest, itemId: string, q: Latest)
    ensures var u := StandardWrite(w, names, next, p);
            SameActive(w, u) && SameActive(w, CompactionItemWrite(u, itemId, next, q))
  {
  }

  lemma StandardSameActive(w: World, names: seq<string>, read: Trackers, p: Latest, newId: string,
                           compact: bool, q: Latest, itemId: string)
    ensures SameActive(w, UpdateStandard(w, names, read, p, newId, compact, q, itemId))
  {
    if UpdateStandard(w, names, read, p, newId, compact, q, itemId) != w {
      var next := StandardShape(w, names, read, p, newId, compact, q, itemId);
      WriteSameActive(w, names, next, p, itemId, q);
    }
  }

  lemma IcebergStepSameActive(h: seq<World>, c: IcebergCommit, id: string, newId: string, workId: string,
                              rs: seq<Replacement>, i: nat, j: nat)
    requires History(h)
    ensures SameActive(h[|h| - 1], Next(h, IcebergAction(c, id, newId, workId, rs, i, j)))
  {
    IcebergIs(h, c, id, newId, workId, rs, i, j);
    if ReadAt(h, i, Standard).Some? && ReadAt(h, j, EsWork).Some? {
      Now(h);
      ReadForward(h, i, Standard);
      ReadForward(h, j, EsWork);
      IcebergSameActive(h[|h| - 1], c, id, newId, workId, rs, ReadAt(h, i, Standard).value, ReadAt(h, j, EsWork).value);
    }
  }

  lemma StandardStepSameActive(h: seq<World>, names: seq<string>, i: nat, j: nat, newId: string, compact: bool, k: nat,
                               itemId: string)
    requires |h| > 0
    ensures SameActive(h[|h| - 1], Next(h, StandardAction(names, i, j, newId, compact, k, itemId)))
  {
    StandardIs(h, names, i, j, newId, compact, k, itemId);
    if i < |h| && ReadAt(h, j, Standard).Some? && ReadAt(h, k, CompactionWork).Some? {
      StandardSameActive(h[|h| - 1], names, h[i].trackers, ReadAt(h, j, Standard).value, newId, compact,
                         ReadAt(h, k, CompactionWork).value, itemId);
    }
  }

  lemma CommitSameActive(h: seq<World>, a: Action)
    requires History(h) && (a.IcebergAction? || a.StandardAction?)
    ensures SameActive(h[|h| - 1], Next(h, a))
  {
    match a {
      case IcebergAction(c, id, newId, workId, rs, i, j) => IcebergStepSameActive(h, c, id, newId, workId, rs, i, j);
      case StandardAction(names, i, j, newId, compact, k, itemId) =>
        StandardStepSameActive(h, names, i, j, newId, compact, k, itemId);
    }
  }

  lemma SpeedboatSameActive(w: World, c: SpeedboatCommit, id: string, workId: string, read: Latest)
    ensures SameActive(w, CommitSpeedboat(w, c, id, workId, read))
  {
  }

  lemma EsSameActive(w: World, exts: seq<string>, readExts: Trackers, name: string, readWaiting: Trackers,
                     newId: string, p: Latest)
    ensures SameActive(w, UpdateEs(w, exts, readExts, name, readWaiting, newId, p))
  {
  }

  lemma RequestSameActive(w: World, read: Option<Latest>, id: string)
    ensures SameActive(w, CreateOrBump(w, Request, read, id))
  {
  }

  lemma TakeSameActive(w: World, read: Latest)
    ensures SameActive(w, TakeExtensionItem(w, read))
  {
  }

  lemma TakeCompactionSameActive(w: World, read: Latest)
    ensures SameActive(w, TakeCompactionItem(w, read))
  {
  }

  lemma OthersSameActive(h: seq<World>, a: Action)
    requires |h| > 0 && !a.Publish? && !a.IcebergAction? && !a.StandardAction?
    ensures SameActive(h[|h| - 1], Next(h, a))
  {
    var w := h[|h| - 1];
    if Next(h, a) != w {
      match a {
        case SpeedboatAction(c, id, workId, i) => SpeedboatSameActive(w, c, id, workId, ReadAt(h, i, EsWork).value);
        case EsAction(exts, i, name, j, newId, k) =>
          EsSameActive(w, exts, h[i].trackers, name, h[j].trackers, newId, ReadAt(h, k, Es).value);
        case QueueRequest(i) =>
          RequestSameActive(w, Describe(h[i], Request), "checkpoint_publication_request#" + w.table);
        case ClearRequest(i) => RequestSameActive(w, ReadAt(h, i, Request), NO_WORK_ITEM);
        case TakeExtension(i) => TakeSameActive(w, ReadAt(h, i, EsWork).value);
        case TakeCompaction(i) => TakeCompactionSameActive(w, ReadAt(h, i, CompactionWork).value);
        case _ =>
      }
    }
  }

  lemma PublishedGood(h: seq<World>, w: World, forEs: bool, committed: Latest, read: Option<Latest>, either: bool)
    requires ActiveGood(h, w, either) && OnceCommitted(h, forEs, committed.entityId)
    requires Republish(w.table, committed.entityId) == Some(committed.entityId)
    ensures ActiveGood(h, PublishActive(w, forEs, committed, read), either)
  {
    PublishedIs(w, forEs, committed, read, either);
  }

  lemma CommittedThen(h: seq<World>, forEs: bool, i: nat)
    requires History(h) && ReadAt(h, i, CommittedKey(forEs)).Some?
    ensures var name := ReadAt(h, i, CommittedKey(forEs)).value.entityId;
            OnceCommitted(h, forEs, name) && Republish(h[|h| - 1].table, name) == Some(name)
  {
    assert HoldsAt(h, i) && Ordered(h, i, |h| - 1);
    CommittedRepublishes(h[i], forEs);
  }

  lemma PublishGood(h: seq<World>, forEs: bool, i: nat, j: nat, either: bool)
    requires History(h) && ActiveGood(h, h[|h| - 1], either)
    ensures ActiveGood(h, Next(h, Publish(forEs, i, j)), either)
  {
    var w := h[|h| - 1];
    if Next(h, Publish(forEs, i, j)) != w {
      CommittedThen(h, forEs, i);
      PublishedGood(h, w, forEs, ReadAt(h, i, CommittedKey(forEs)).value, Describe(h[j], ActiveKey(forEs)), either);
    }
  }

  lemma PublishedIs(w: World, forEs: bool, committed: Latest, read: Option<Latest>, either: bool)
    requires Republish(w.table, committed.entityId) == Some(committed.entityId)
    ensures var v := PublishActive(w, forEs, committed, read);
            || Describe(v, ActiveKey(either)) == Describe(w, ActiveKey(either))
            || (either == forEs && ActiveKey(forEs) in v.pointers
                && v.pointers[ActiveKey(forEs)].entityId == committed.entityId)
  {
  }

  lemma ActiveStep(h: seq<World>, a: Action, forEs: bool)
    requires History(h) && ActiveGood(h, h[|h| - 1], forEs)
    ensures ActiveGood(h, Next(h, a), forEs)
  {
    if a.Publish? {
      PublishGood(h, a.forEs, a.committedAt, a.activeAt, forEs);
    } else if a.IcebergAction? || a.StandardAction? {
      CommitSameActive(h, a);
    } else {
      OthersSameActive(h, a);
    }
  }

  lemma OnceCommittedLater(g: seq<World>, v: World, forEs: bool, name: string)
    requires OnceCommitted(g, forEs, name)
    ensures OnceCommitted(g + [v], forEs, name)
  {
    var i :| 0 <= i < |g| && CommittedKey(forEs) in g[i].pointers
      && g[i].pointers[CommittedKey(forEs)].entityId == name;
    assert (g + [v])[i] == g[i];
  }

  lemma ActiveLater(g: seq<World>, v: World, forEs: bool)
    requires ActiveGood(g, v, forEs)
    ensures ActiveGood(g + [v], v, forEs)
  {
    if ActiveKey(forEs) in v.pointers { OnceCommittedLater(g, v, forEs, v.pointers[ActiveKey(forEs)].entityId); }
  }

  /** The step of the induction, for the last action of a run. */
  lemma ActiveRunStep(h: seq<World>, acts: seq<Action>, n: nat, forEs: bool)
    requires |h| == |acts| + 1 && n < |acts| && StepsTo(h, acts, n) && History(h[..n + 1])
    requires ActiveGood(h[..n + 1], h[n], forEs)
    ensures ActiveGood(h[..n + 1], h[n + 1], forEs)
  {
    ActiveStep(h[..n + 1], acts[n], forEs);
  }

  /** Every active pointer names a checkpoint that was once the committed latest for that extension. */
  lemma {:induction false} ActiveOnceCommitted(h: seq<World>, acts: seq<Action>, forEs: bool)
    requires IsRun(h, acts)
    ensures ActiveGood(h, h[|acts|], forEs)
    decreases |acts|
  {
    if |acts| == 0 {
      StartOf(h, acts);
    } else {
      var n := |acts| - 1;
      RunPrefix(h, acts);
      RunsAreSafe(h[..n + 1], acts[..n]);
      ActiveOnceCommitted(h[..n + 1], acts[..n], forEs);
      StepOf(h, acts, n);
      ActiveRunStep(h, acts, n, forEs);
      ActiveLater(h[..n + 1], h[n + 1], forEs);
    }
  }

  lemma OnceCommittedPrefix(h: seq<World>, n: nat, forEs: bool, name: string)
    requires n <= |h| && OnceCommitted(h[..n], forEs, name)
    ensures OnceCommitted(h, forEs, name)
  {
    var i :| 0 <= i < n && CommittedKey(forEs) in h[..n][i].pointers
      && h[..n][i].pointers[CommittedKey(forEs)].entityId == name;
    assert h[..n][i] == h[i];
  }

  lemma ActiveThen(h: seq<World>, acts: seq<Action>, forEs: bool, i: nat)
    requires IsRun(h, acts) && i < |h| && ActiveKey(forEs) in h[i].pointers
    ensures OnceCommitted(h, forEs, h[i].pointers[ActiveKey(forEs)].entityId)
  {
    RunTake(h, acts, i);
    ActiveOnceCommitted(h[..i + 1], acts[..i], forEs);
    OnceCommittedPrefix(h, i + 1, forEs, h[i].pointers[ActiveKey(forEs)].entityId);
  }

  /** What readers are told to use was once the committed latest, published or not, even when the active
      pointer, the publication request and the committed pointer were read in three different worlds. */
  lemma ReadersSeeCommitted(h: seq<World>, acts: seq<Action>, forEs: bool, i: nat, j: nat, k: nat)
    requires IsRun(h, acts) && i < |h| && j < |h| && k < |h|
    ensures var r := ActiveName(h[i], h[j], h[k], forEs); r.Some? ==> OnceCommitted(h, forEs, r.value)
  {
    if ActiveKey(forEs) in h[i].pointers { ActiveThen(h, acts, forEs, i); }
  }

  /** Someone has asked for a publication. */
  predicate Requested(w: World) { Request in w.pointers && w.pointers[Request].entityId != NO_WORK_ITEM }

  /** In every run readers are told the active checkpoint if there is one, nothing while a first publication is asked
      for, and the committed checkpoint otherwise. */
  lemma ReadersAreTold(h: seq<World>, acts: seq<Action>, forEs: bool, i: nat, j: nat, k: nat)
    requires IsRun(h, acts) && i < |h| && j < |h| && k < |h|
    ensures var active, committed := if forEs then ActiveEs else Active, if forEs then Es else Standard;
            var r := ActiveName(h[i], h[j], h[k], forEs);
            && (active in h[i].pointers ==> r == Some(h[i].pointers[active].entityId))
            && (active !in h[i].pointers && Requested(h[j]) ==> r == None)
            && (active !in h[i].pointers && !Requested(h[j]) ==>
                  committed in h[k].pointers && r == Some(h[k].pointers[committed].entityId))
  {
    RunsAreSafe(h, acts);
    assert HoldsAt(h, k);
  }

  /** The pointers after a write with a present read. */
  function Written(ps: Pointers, k: PointerKey, id: string): Pointers {
    if k in ps then Bump(ps, k, ps[k], id) else ps[k := Latest(0, id)]
  }

  lemma WrittenNow(w: World, k: PointerKey, id: string)
    ensures CreateOrBump(w, k, Describe(w, k), id) == w.(pointers := Written(w.pointers, k, id))
  {
    if k in w.pointers {
      BumpedNow(w, k, id);
    } else {
      assert CreateOrBump(w, k, None, id) == w.(pointers := w.pointers[k := Latest(0, id)]);
    }
  }

  lemma BumpedNow(w: World, k: PointerKey, id: string)
    requires k in w.pointers
    ensures CreateOrBump(w, k, Some(w.pointers[k]), id) == w.(pointers := Bump(w.pointers, k, w.pointers[k], id))
  {
    assert Unchanged(w, k, w.pointers[k]);
  }

  /** Readers of `v` see what was committed in `w`. */
  predicate Shows(w: World, v: World, forEs: bool) {
    var committed := if forEs then Es else Standard;
    && committed in w.pointers && committed in v.pointers && v.pointers[committed] == w.pointers[committed]
    && ActiveName(v, v, v, forEs) == Some(w.pointers[committed].entityId)
  }

  lemma WrittenShows(w: World, forEs: bool)
    requires CommittedKey(forEs) in w.pointers
    ensures var name := w.pointers[CommittedKey(forEs)].entityId;
            && Shows(w, w.(pointers := Written(w.pointers, ActiveKey(forEs), name)), forEs)
            && (ActiveKey(forEs) in w.pointers && w.pointers[ActiveKey(forEs)].entityId == name ==> Shows(w, w, forEs))
  {
  }

  lemma PublishNow(g: seq<World>, forEs: bool)
    requires |g| > 0 && CommittedKey(forEs) in g[|g| - 1].pointers
    requires var name := g[|g| - 1].pointers[CommittedKey(forEs)].entityId;
             Republish(g[|g| - 1].table, name) == Some(name)
    ensures Shows(g[|g| - 1], Next(g, Publish(forEs, |g| - 1, |g| - 1)), forEs)
  {
    var n, w := |g| - 1, g[|g| - 1];
    PublishIs(g, forEs, n, n);
    WrittenNow(w, ActiveKey(forEs), w.pointers[CommittedKey(forEs)].entityId);
    WrittenShows(w, forEs);
  }

  lemma CommittedThere(h: seq<World>, acts: seq<Action>, n: nat, forEs: bool)
    requires IsRun(h, acts) && n < |h|
    ensures CommittedKey(forEs) in h[n].pointers
    ensures var name := h[n].pointers[CommittedKey(forEs)].entityId; Republish(h[n].table, name) == Some(name)
  {
    RunsAreSafe(h, acts);
    assert HoldsAt(h, n);
    CommittedRepublishes(h[n], forEs);
  }

  /** A publication with present reads makes readers see the committed checkpoint. */
  lemma PublicationShows(h: seq<World>, acts: seq<Action>, n: nat, forEs: bool)
    requires IsRun(h, acts) && n < |acts| && acts[n] == Publish(forEs, n, n)
    ensures Shows(h[n], h[n + 1], forEs)
  {
    CommittedThere(h, acts, n, forEs);
    StepOf(h, acts, n);
    PublishNow(h[..n + 1], forEs);
  }

  lemma QueueNow(g: seq<World>)
    requires |g| > 0
    ensures Requested(Next(g, QueueRequest(|g| - 1)))
  {
    var name := "checkpoint_publication_request#" + g[|g| - 1].table;
    QueueIs(g, |g| - 1);
    WrittenNow(g[|g| - 1], Request, name);
    assert name[0] == 'c';
  }

  lemma ClearNow(g: seq<World>)
    requires |g| > 0
    ensures !Requested(Next(g, ClearRequest(|g| - 1)))
  {
    ClearIs(g, |g| - 1);
    WrittenNow(g[|g| - 1], Request, NO_WORK_ITEM);
  }

  /** With a present read, a request for a publication is there afterwards. */
  lemma QueuedIsRequested(h: seq<World>, acts: seq<Action>, n: nat)
    requires IsRun(h, acts) && n < |acts| && acts[n] == QueueRequest(n)
    ensures Requested(h[n + 1])
  {
    StepOf(h, acts, n);
    QueueNow(h[..n + 1]);
  }

  /** With a present read, clearing it takes it away. */
  lemma ClearedIsGone(h: seq<World>, acts: seq<Action>, n: nat)
    requires IsRun(h, acts) && n < |acts| && acts[n] == ClearRequest(n)
    ensures !Requested(h[n + 1])
  {
    StepOf(h, acts, n);
    ClearNow(h[..n + 1]);
  }

  // ------------------------------------------------------------ cleanup leases

  /** Step `i` claims the cleanup lease `name`. */
  predicate Claims(h: seq<World>, acts: seq<Action>, i: nat, name: string)
    requires |h| == |acts| + 1 && i < |acts|
  {
    acts[i].ClaimCleanup? && name in acts[i].names && h[i + 1] != h[i]
  }

  lemma ClaimEffect(h: seq<World>, names: seq<string>, i: nat, j: nat, name: string)
    requires |h| > 0 && name in names
    requires Next(h, ClaimCleanup(names, i, j)) != h[|h| - 1]
    ensures var w, v, k := h[|h| - 1], Next(h, ClaimCleanup(names, i, j)), TrackerKey(CleanupLease, name);
            && j < |h| && k in w.trackers && k in v.trackers
            && w.trackers[k].version != -1 && v.trackers[k] == Tracker(w.trackers[k].version + 1, h[j].now)
  {
    var n :| 0 <= n < |names| && names[n] == name;
  }

  /** What a claim does to its lease, in a run. */
  lemma ClaimStep(h: seq<World>, acts: seq<Action>, i: nat, name: string)
    requires IsRun(h, acts) && i < |acts| && Claims(h, acts, i, name)
    ensures var k := TrackerKey(CleanupLease, name);
            && acts[i].builtAt < |h| && k in h[i].trackers && k in h[i + 1].trackers && h[i].trackers[k].version != -1
            && h[i + 1].trackers[k] == Tracker(h[i].trackers[k].version + 1, h[acts[i].builtAt].now)
  {
    StepOf(h, acts, i);
    ClaimEffect(h[..i + 1], acts[i].names, acts[i].readAt, acts[i].builtAt, name);
  }

  /** Two claims of the same lease write different versions and are more than the lease length apart. */
  lemma ClaimsApart(h: seq<World>, acts: seq<Action>, i: nat, j: nat, name: string)
    requires IsRun(h, acts) && i < j < |acts| && Claims(h, acts, i, name) && Claims(h, acts, j, name)
    ensures acts[i].builtAt < |h| && acts[j].builtAt < |h|
    ensures h[acts[j].builtAt].now > h[acts[i].builtAt].now + LEASE_LENGTH_MS
    ensures var k := TrackerKey(CleanupLease, name);
            && k in h[i + 1].trackers && k in h[j + 1].trackers
            && h[i + 1].trackers[k].version < h[j + 1].trackers[k].version
  {
    var k := TrackerKey(CleanupLease, name);
    ClaimStep(h, acts, i, name);
    ClaimStep(h, acts, j, name);
    LaterTracker(h, acts, i + 1, j, k);
    LaterTracker(h, acts, i + 1, j + 1, k);
  }

  lemma LaterTracker(h: seq<World>, acts: seq<Action>, i: nat, j: nat, k: TrackerKey)
    requires IsRun(h, acts) && i <= j < |h| && k in h[i].trackers
    ensures k in h[j].trackers && TrackerForward(h[i].trackers[k], h[j].trackers[k])
    ensures k.kind == CleanupLease ==> LeaseGap(h[i].trackers[k], h[j].trackers[k])
  {
    RunsAreSafe(h, acts);
    assert Ordered(h, i, j);
  }

  /** A tracker that is done stays done forever, and a done cleanup lease is never claimed again. */
  lemma DoneStaysDone(h: seq<World>, acts: seq<Action>, i: nat, j: nat, k: TrackerKey)
    requires IsRun(h, acts) && i <= j < |h| && k in h[i].trackers && h[i].trackers[k].version == -1
    ensures k in h[j].trackers && h[j].trackers[k].version == -1
    ensures j < |acts| && k.kind == CleanupLease ==> !Claims(h, acts, j, k.name)
  {
    LaterTracker(h, acts, i, j, k);
    if j < |acts| && k.kind == CleanupLease && Claims(h, acts, j, k.name) {
      ClaimStep(h, acts, j, k.name);
    }
  }
}
