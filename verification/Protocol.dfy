/** The checkpoint protocol of one table on the shared metadata store
    (`query_runtime/src/dynamodb.rs`, `query_runtime/src/dynamodb_service_impl.rs`).

    A world is the content of the store together with the wall clock.  A worker reads pointers and
    trackers at moments of its choosing and then tries one all-or-nothing conditional write.  An
    action therefore names the earlier worlds it read from; a write whose conditions fail, or a
    worker that aborts, leaves the world as it is.  Entities that are written once and never change
    (commits, checkpoints, work items) are looked up at the time of the write. */
module Protocol {
  import opened Prelude
  import opened Schemas
  import opened FileSets
  import opened Checkpoints
  import opened Descriptors

  const NO_WORK_ITEM := "-1"
  const UNCLAIMED_TIME := 0
  const LEASE_LENGTH_MS := 60 * 1000

  /** `EntityVersionInfo`. */
  datatype Latest = Latest(version: nat, entityId: string)

  /** -1 means done. */
  type TrackerVersion = v: int | -1 <= v

  /** `PowdrrTracker`. */
  datatype Tracker = Tracker(version: TrackerVersion, claimedAt: int)

  /** `ExtensionWorkItem` for the "es" extension. */
  datatype WorkItem = WorkItem(speedboatFiles: seq<FileDesc>, icebergFiles: seq<FileDesc>)

  datatype CompactionWorkItem = CompactionWorkItem(
    speedboatFiles: seq<FileDesc>, deleteFiles: seq<string>, checkpointIdToReplace: string)

  /** The "latest" pointers of a table, and its outstanding publication request. */
  datatype PointerKey = Standard | Es | EsWork | CompactionWork | Active | ActiveEs | Request

  datatype TrackerKind =
    | SpeedboatCheckpointed | ExtensionCheckpointed | WaitingForExtension | EsLease | CompactionLease | CleanupLease

  datatype TrackerKey = TrackerKey(kind: TrackerKind, name: string)

  type Pointers = map<PointerKey, Latest>
  type Trackers = map<TrackerKey, Tracker>

  datatype World = World(
    table: string,
    now: int,
    pointers: Pointers,
    trackers: Trackers,
    checkpoints: map<string, Checkpoint>,
    speedboats: map<string, SpeedboatCommit>,
    icebergs: map<string, IcebergCommit>,
    extensionCommits: map<string, ExtensionCommit>,
    compactions: Compactions,
    workItems: map<string, WorkItem>,
    compactionItems: map<string, CompactionWorkItem>,
    cleanupItems: map<string, seq<string>>)

  /** Ids for the records that replace one compacted checkpoint. */
  datatype Replacement = Replacement(compactionId: string, checkpointId: string, cleanupId: string)

  datatype Action =
    | Tick(now: int)
    | SpeedboatAction(commit: SpeedboatCommit, commitId: string, workId: string, esWorkAt: nat)
    | IcebergAction(iceberg: IcebergCommit, commitId: string, newId: string, workId: string,
                    replacements: seq<Replacement>, standardAt: nat, esWorkAt: nat)
    | CompactionAction(compaction: CompactionCommit)
    | StandardAction(names: seq<string>, trackersAt: nat, standardAt: nat, newId: string,
                     compact: bool, compactionAt: nat, itemId: string)
    | EsAction(extensions: seq<string>, extensionsAt: nat, waitingName: string, waitingAt: nat, newId: string,
               esAt: nat)
    | WaitingDone(waitingName: string, waitingAt: nat)
    | TakeExtension(esWorkAt: nat)
    | CompleteExtension(extensionCommit: ExtensionCommit)
    | TakeCompaction(compactionAt: nat)
    | ClaimCleanup(names: seq<string>, readAt: nat, builtAt: nat)
    | CleanupDone(name: string)
    | Publish(forEs: bool, committedAt: nat, activeAt: nat)
    | QueueRequest(requestAt: nat)
    | ClearRequest(requestAt: nat)

  /** Ids come from `IdInstance::next_id`, printed in decimal. */
  predicate GeneratedId(s: string) {
    |s| > 0 && forall i :: 0 <= i < |s| ==> '0' <= s[i] <= '9'
  }

  function CheckpointName(c: Checkpoint): string {
    FullName(Descriptor(c.tableName, c.id, c.originalId))
  }

  /** `create_table_helper`. */
  function Init(table: string, id: string, now: int): World {
    var c := NewCheckpoint(table, id);
    World(table, now,
          map[Standard := Latest(0, CheckpointName(c)), Es := Latest(0, CheckpointName(c)),
              EsWork := Latest(0, NO_WORK_ITEM), CompactionWork := Latest(0, NO_WORK_ITEM)],
          map[], map[CheckpointName(c) := c], map[], map[], map[], map[], map[], map[], map[])
  }

  // ------------------------------------------------------------- es work items

  /** `merge_speedboat`. */
  function MergeSpeedboat(item: WorkItem, ts: seq<TableInfo>): Option<WorkItem> {
    if |ts| == 0 then Some(item)
    else
      match MergeSpeedboat(item, ts[..|ts| - 1])
      case None => None
      case Some(w) =>
        var t := ts[|ts| - 1];
        if !IsData(t) then Some(w)
        else
          match Payload(t)
          case None => None
          case Some(fs) => Some(w.(speedboatFiles := MergeFiles(w.speedboatFiles, fs)))
  }

  /** `merge_iceberg`. */
  function MergeIceberg(item: WorkItem, c: IcebergCommit): WorkItem {
    item.(icebergFiles := MergeFiles(item.icebergFiles, c.metadata.files))
  }

  /** The item behind a pointer; an empty one when there is none. */
  function PendingItem(w: World, p: Latest): Option<WorkItem> {
    if p.entityId == NO_WORK_ITEM then Some(WorkItem([], []))
    else if p.entityId in w.workItems then Some(w.workItems[p.entityId])
    else None
  }

  // --------------------------------------------------------------- the writes

  /** The condition of `bump_version`. */
  predicate Unchanged(w: World, k: PointerKey, read: Latest) {
    k in w.pointers && w.pointers[k].version == read.version
  }

  /** The effect of `bump_version`. */
  function Bump(ps: Pointers, k: PointerKey, read: Latest, id: string): Pointers {
    ps[k := Latest(read.version + 1, id)]
  }

  function NewTracker(ts: Trackers, kind: TrackerKind, name: string, claimedAt: int): Trackers {
    ts[TrackerKey(kind, name) := Tracker(0, claimedAt)]
  }

  /** `create_checkpoint_waiting_for_extension_core`, when the checkpoint is not covered. */
  function AddWaiting(ts: Trackers, name: string, c: Checkpoint): Trackers {
    if CoveredByCount(c, "es") then ts else NewTracker(ts, WaitingForExtension, name, UNCLAIMED_TIME)
  }

  predicate WaitingFree(ts: Trackers, name: string, c: Checkpoint) {
    !CoveredByCount(c, "es") ==> TrackerKey(WaitingForExtension, name) !in ts
  }

  /** An unconditional `mark_done`: writes version -1 whether or not the tracker exists. */
  function MarkDone(ts: Trackers, k: TrackerKey): Trackers {
    ts[k := Tracker(-1, if k in ts then ts[k].claimedAt else UNCLAIMED_TIME)]
  }

  /** The trackers in a query result were not done when read. */
  predicate Pending(ts: Trackers, kind: TrackerKind, names: seq<string>) {
    forall i :: 0 <= i < |names| ==> TrackerKey(kind, names[i]) in ts && ts[TrackerKey(kind, names[i])].version != -1
  }

  /** The condition of every `mark_done` and `claim` on a list of trackers. */
  predicate SameVersions(read: Trackers, ts: Trackers, kind: TrackerKind, names: seq<string>) {
    forall i :: 0 <= i < |names| ==>
      var k := TrackerKey(kind, names[i]);
      k in read && k in ts && ts[k].version == read[k].version
  }

  function MarkAllDone(ts: Trackers, kind: TrackerKind, names: seq<string>): Trackers {
    map k | k in ts :: if k.kind == kind && k.name in names then ts[k].(version := -1) else ts[k]
  }

  /** `commit_speedboat`: the pending work item was read at pointer `read`. */
  function CommitSpeedboat(w: World, c: SpeedboatCommit, commitId: string, workId: string, read: Latest): World {
    var item := PendingItem(w, read);
    if item.None? || |c.typeFiles| == 0 then w
    else
      var merged := MergeSpeedboat(item.value, c.typeFiles);
      if merged.Some? && GeneratedId(commitId) && GeneratedId(workId) && commitId !in w.speedboats
         && TrackerKey(SpeedboatCheckpointed, commitId) !in w.trackers
         && workId !in w.workItems && Unchanged(w, EsWork, read) then
        SpeedboatWrite(w, c, commitId, workId, merged.value, read)
      else w
  }

  function SpeedboatWrite(w: World, c: SpeedboatCommit, commitId: string, workId: string, item: WorkItem,
                          read: Latest): World
  {
    w.(speedboats := w.speedboats[commitId := c],
       trackers := NewTracker(w.trackers, SpeedboatCheckpointed, commitId, UNCLAIMED_TIME),
       workItems := w.workItems[workId := item],
       pointers := Bump(w.pointers, EsWork, read, workId))
  }

  /** The checkpoint to replace exists, is an original one, and takes the compaction. */
  predicate ReplacementApplies(w: World, k: CompactionCommit, c: IcebergCommit) {
    var name := FullName(Descriptor(w.table, k.checkpointIdToReplace, None));
    && name in w.checkpoints
    && w.checkpoints[name].originalId.None?
    && ApplyReplacement(w.checkpoints[name], k, c.metadata).Some?
  }

  /** Step 5 of `commit_iceberg` for one compaction.  As in the source, the record stored under the
      replacement's name holds the new checkpoint. */
  function AddReplacement(start: World, w: World, c: IcebergCommit, r: Replacement, next: Checkpoint): Option<World> {
    if r.compactionId !in start.compactions then None
    else
      var k := start.compactions[r.compactionId];
      var name := FullName(Descriptor(w.table, r.checkpointId, Some(k.checkpointIdToReplace)));
      if ReplacementApplies(start, k, c) && GeneratedId(r.checkpointId) && GeneratedId(r.cleanupId)
         && name !in w.checkpoints && WaitingFree(w.trackers, name, next)
         && r.cleanupId !in w.cleanupItems && TrackerKey(CleanupLease, r.cleanupId) !in w.trackers then
        Some(ReplacementWrite(w, name, r, k, next))
      else None
  }

  function ReplacementWrite(w: World, name: string, r: Replacement, k: CompactionCommit, next: Checkpoint): World {
    w.(checkpoints := w.checkpoints[name := next],
       cleanupItems := w.cleanupItems[r.cleanupId := k.removedSpeedboatFiles + k.removedDeleteFiles],
       trackers := NewTracker(
         MarkDone(AddWaiting(w.trackers, name, next), TrackerKey(CompactionLease, r.compactionId)),
         CleanupLease, r.cleanupId, UNCLAIMED_TIME))
  }

  function AddReplacements(start: World, w: World, c: IcebergCommit, rs: seq<Replacement>, next: Checkpoint)
    : Option<World>
  {
    if |rs| == 0 then Some(w)
    else
      match AddReplacements(start, w, c, rs[..|rs| - 1], next)
      case None => None
      case Some(v) => AddReplacement(start, v, c, rs[|rs| - 1], next)
  }

  /** One replacement for each distinct compaction of the commit, in any order. */
  predicate ReplacesAll(c: IcebergCommit, rs: seq<Replacement>) {
    && (forall i, j :: 0 <= i < j < |rs| ==> rs[i].compactionId != rs[j].compactionId)
    && (set r | r in rs :: r.compactionId) == (set k | k in c.compactions)
  }

  /** `commit_iceberg`: the latest checkpoint was read at pointer `readStandard`, the pending work
      item at pointer `readWork`. */
  function CommitIceberg(w: World, c: IcebergCommit, commitId: string, newId: string, workId: string,
                         rs: seq<Replacement>, readStandard: Latest, readWork: Latest): World
  {
    var item := PendingItem(w, readWork);
    if item.None? || readStandard.entityId !in w.checkpoints then w
    else
      var applied := CloneAndApply(w.checkpoints[readStandard.entityId], newId, [], [c], [], w.compactions);
      if applied.None? then w
      else
        var next := applied.value.0;
        var name := CheckpointName(next);
        if GeneratedId(commitId) && GeneratedId(newId) && GeneratedId(workId) && UniquePaths(c.metadata.files)
           && commitId !in w.icebergs && workId !in w.workItems && name !in w.checkpoints
           && WaitingFree(w.trackers, name, next) && ReplacesAll(c, rs)
           && Unchanged(w, Standard, readStandard) && Unchanged(w, EsWork, readWork) then
          match AddReplacements(w, IcebergWrite(w, c, commitId, workId, item.value, next, readStandard, readWork),
                                c, rs, next)
          case None => w
          case Some(u) => u
        else w
  }

  /** Steps 1 to 4 of `commit_iceberg`. */
  function IcebergWrite(w: World, c: IcebergCommit, commitId: string, workId: string, item: WorkItem, next: Checkpoint,
                        readStandard: Latest, readWork: Latest): World
  {
    w.(icebergs := w.icebergs[commitId := c],
       checkpoints := w.checkpoints[CheckpointName(next) := next],
       trackers := AddWaiting(w.trackers, CheckpointName(next), next),
       workItems := w.workItems[workId := MergeIceberg(item, c)],
       pointers := Bump(Bump(w.pointers, Standard, readStandard, CheckpointName(next)), EsWork, readWork, workId))
  }

  /** `compaction_commit`: only notes what a compactor announces. */
  function RecordCompaction(w: World, k: CompactionCommit): World {
    if |k.compactionId| > 0 && k.compactionId !in w.compactions then
      w.(compactions := w.compactions[k.compactionId := k])
    else w
  }

  function CommitsNamed(w: World, names: seq<string>): seq<SpeedboatCommit>
    requires forall i :: 0 <= i < |names| ==> names[i] in w.speedboats
  {
    seq(|names|, i requires 0 <= i < |names| => w.speedboats[names[i]])
  }

  /** `CompactionWorkItem::from_checkpoint`. */
  function ItemFromCheckpoint(c: Checkpoint): CompactionWorkItem {
    CompactionWorkItem(SpeedboatFiles(c), DeleteFiles(c), c.id)
  }

  /** `update_standard_checkpoint` followed by `commit_checkpoint`: the trackers were queried in `read`,
      the pointers read as `readStandard` and (if a compaction is wanted) `readCompaction`. */
  function UpdateStandard(w: World, names: seq<string>, read: Trackers, readStandard: Latest, newId: string,
                          compact: bool, readCompaction: Latest, itemId: string): World
  {
    if |names| == 0 || !NoDup(names) || !Pending(read, SpeedboatCheckpointed, names)
       || readStandard.entityId !in w.checkpoints
       || !(forall i :: 0 <= i < |names| ==> names[i] in w.speedboats) then w
    else
      var applied :=
        CloneAndApply(w.checkpoints[readStandard.entityId], newId, CommitsNamed(w, names), [], [], w.compactions);
      if applied.None? then w
      else
        var next := applied.value.0;
        var name := CheckpointName(next);
        var withItem := compact && readCompaction.entityId == NO_WORK_ITEM;
        if GeneratedId(newId) && Unchanged(w, Standard, readStandard)
           && SameVersions(read, w.trackers, SpeedboatCheckpointed, names)
           && name !in w.checkpoints && WaitingFree(w.trackers, name, next)
           && (withItem ==> GeneratedId(itemId) && itemId !in w.compactionItems
                            && Unchanged(w, CompactionWork, readCompaction)) then
          var v := StandardWrite(w, names, next, readStandard);
          if withItem then CompactionItemWrite(v, itemId, next, readCompaction) else v
        else w
  }

  function StandardWrite(w: World, names: seq<string>, next: Checkpoint, readStandard: Latest): World {
    w.(checkpoints := w.checkpoints[CheckpointName(next) := next],
       trackers := AddWaiting(MarkAllDone(w.trackers, SpeedboatCheckpointed, names), CheckpointName(next), next),
       pointers := Bump(w.pointers, Standard, readStandard, CheckpointName(next)))
  }

  function CompactionItemWrite(w: World, itemId: string, next: Checkpoint, readCompaction: Latest): World {
    w.(compactionItems := w.compactionItems[itemId := ItemFromCheckpoint(next)],
       pointers := Bump(w.pointers, CompactionWork, readCompaction, itemId))
  }

  function ExtensionsNamed(w: World, names: seq<string>): seq<ExtensionCommit>
    requires forall i :: 0 <= i < |names| ==> names[i] in w.extensionCommits
  {
    seq(|names|, i requires 0 <= i < |names| => w.extensionCommits[names[i]])
  }

  /** The covered form of a waiting checkpoint, as `update_extension_checkpoint` computes it. */
  function Covered(w: World, c: Checkpoint, exts: seq<string>, newId: string): Option<Checkpoint>
    requires forall i :: 0 <= i < |exts| ==> exts[i] in w.extensionCommits
  {
    match CloneAndApply(c, newId, [], [], ExtensionsNamed(w, exts), w.compactions)
    case None => None
    case Some(r) => Some(r.0.(originalId := Some(if c.originalId.Some? then c.originalId.value else c.id)))
  }

  /** `update_extension_checkpoint` for one waiting checkpoint: it is committed under the "es" pointer
      when it is fully covered and its name is greater than the one read there. */
  function UpdateEs(w: World, exts: seq<string>, readExts: Trackers, name: string,
                    readWaiting: Trackers, newId: string, readEs: Latest): World
  {
    if |exts| == 0 || !Pending(readExts, ExtensionCheckpointed, exts)
       || !Pending(readWaiting, WaitingForExtension, [name])
       || name !in w.checkpoints || !(forall i :: 0 <= i < |exts| ==> exts[i] in w.extensionCommits) then w
    else
      match Covered(w, w.checkpoints[name], exts, newId)
      case None => w
      case Some(next) =>
        if CoveredByCount(next, "es") && Less(readEs.entityId, CheckpointName(next))
           && GeneratedId(newId) && Unchanged(w, Es, readEs) && CheckpointName(next) !in w.checkpoints then
          EsWrite(w, next, readEs)
        else w
  }

  function EsWrite(w: World, next: Checkpoint, readEs: Latest): World {
    w.(checkpoints := w.checkpoints[CheckpointName(next) := next],
       pointers := Bump(w.pointers, Es, readEs, CheckpointName(next)))
  }

  /** `mark_done_checkpoint_waiting_for_extension`. */
  function MarkWaitingDone(w: World, name: string, read: Trackers): World {
    if Pending(read, WaitingForExtension, [name]) && SameVersions(read, w.trackers, WaitingForExtension, [name]) then
      w.(trackers := MarkAllDone(w.trackers, WaitingForExtension, [name]))
    else w
  }

  /** `commit_extension_work_item_taken` for this table: the pointer is emptied and a lease recorded. */
  function TakeExtensionItem(w: World, read: Latest): World {
    if read.entityId != NO_WORK_ITEM && Unchanged(w, EsWork, read)
       && TrackerKey(EsLease, read.entityId) !in w.trackers then
      w.(pointers := Bump(w.pointers, EsWork, read, NO_WORK_ITEM),
         trackers := NewTracker(w.trackers, EsLease, read.entityId, w.now))
    else w
  }

  /** `commit_extension_work_item_completed`. */
  function CompleteExtensionItem(w: World, e: ExtensionCommit): World {
    var lease := TrackerKey(EsLease, e.id);
    if lease in w.trackers && w.trackers[lease].version == 0
       && e.id !in w.extensionCommits && TrackerKey(ExtensionCheckpointed, e.id) !in w.trackers then
      w.(extensionCommits := w.extensionCommits[e.id := e], trackers := CompletedTrackers(w.trackers, e.id))
    else w
  }

  function CompletedTrackers(ts: Trackers, id: string): Trackers {
    NewTracker(MarkDone(ts, TrackerKey(EsLease, id)), ExtensionCheckpointed, id, UNCLAIMED_TIME)
  }

  /** `commit_compaction_work_item_taken`. */
  function TakeCompactionItem(w: World, read: Latest): World {
    if read.entityId != NO_WORK_ITEM && Unchanged(w, CompactionWork, read)
       && TrackerKey(CompactionLease, read.entityId) !in w.trackers then
      w.(pointers := Bump(w.pointers, CompactionWork, read, NO_WORK_ITEM),
         trackers := NewTracker(w.trackers, CompactionLease, read.entityId, w.now))
    else w
  }

  /** The filter of `oldest_available_cleanup_work_item_lease` at clock time `readTime`. */
  predicate Claimable(ts: Trackers, names: seq<string>, readTime: int) {
    && Pending(ts, CleanupLease, names)
    && forall i :: 0 <= i < |names| ==> ts[TrackerKey(CleanupLease, names[i])].claimedAt < readTime - LEASE_LENGTH_MS
  }

  /** `get_cleanup_work_items`: all claims are one transaction, stamped when it was built. */
  function ClaimCleanupItems(w: World, names: seq<string>, read: Trackers, readTime: int, stamp: int): World {
    if NoDup(names) && Claimable(read, names, readTime) && SameVersions(read, w.trackers, CleanupLease, names) then
      w.(trackers := ClaimAll(w.trackers, names, stamp))
    else w
  }

  function ClaimAll(ts: Trackers, names: seq<string>, stamp: int): Trackers {
    map k | k in ts :: if k.kind == CleanupLease && k.name in names then Tracker(ts[k].version + 1, stamp) else ts[k]
  }

  /** `cleanup_commit`. */
  function FinishCleanup(w: World, name: string): World {
    w.(trackers := MarkDone(w.trackers, TrackerKey(CleanupLease, name)))
  }

  /** `create_latest` or `bump_version`, depending on what was read. */
  function CreateOrBump(w: World, k: PointerKey, read: Option<Latest>, id: string): World {
    match read
    case None => if k in w.pointers then w else w.(pointers := w.pointers[k := Latest(0, id)])
    case Some(r) => if Unchanged(w, k, r) then w.(pointers := Bump(w.pointers, k, r, id)) else w
  }

  /** `describe_latest`. */
  function Describe(w: World, k: PointerKey): Option<Latest> {
    if k in w.pointers then Some(w.pointers[k]) else None
  }

  function ActiveKey(forEs: bool): PointerKey { if forEs then ActiveEs else Active }

  function CommittedKey(forEs: bool): PointerKey { if forEs then Es else Standard }

  /** `set_active_checkpoint_id` for the checkpoint that the committed pointer named when it was read. */
  function PublishActive(w: World, forEs: bool, committed: Latest, readActive: Option<Latest>): World {
    match Republish(w.table, committed.entityId)
    case None => w
    case Some(name) =>
      if readActive.Some? && readActive.value.entityId == name then w
      else CreateOrBump(w, ActiveKey(forEs), readActive, name)
  }

  /** `queue_checkpoint_publication`. */
  function RequestPublication(w: World, read: Option<Latest>): World {
    CreateOrBump(w, Request, read, "checkpoint_publication_request#" + w.table)
  }

  function ClearPublication(w: World, read: Latest): World {
    CreateOrBump(w, Request, Some(read), NO_WORK_ITEM)
  }

  /** `get_active_checkpoint_id`, as the full name behind the id it returns.  The active pointer, the request
      and the committed pointer are read one after the other. */
  function ActiveName(activeAt: World, requestAt: World, committedAt: World, forEs: bool): Option<string> {
    match Describe(activeAt, ActiveKey(forEs))
    case Some(p) => Some(p.entityId)
    case None =>
      var request := Describe(requestAt, Request);
      if request.Some? && request.value.entityId != NO_WORK_ITEM then None
      else
        match Describe(committedAt, CommittedKey(forEs))
        case Some(p) => Some(p.entityId)
        case None => None
  }

  // --------------------------------------------------------------------- runs

  /** A pointer as some earlier world had it. */
  function ReadAt(h: seq<World>, i: nat, k: PointerKey): Option<Latest> {
    if i < |h| then Describe(h[i], k) else None
  }

  /** The world after action `a`, given the history `h` whose last world is the present one. */
  function Next(h: seq<World>, a: Action): World
    requires |h| > 0
  {
    var w := h[|h| - 1];
    match a
    case Tick(now) => if now >= w.now then w.(now := now) else w
    case SpeedboatAction(c, id, workId, i) =>
      (match ReadAt(h, i, EsWork)
       case Some(p) => CommitSpeedboat(w, c, id, workId, p)
       case None => w)
    case IcebergAction(c, id, newId, workId, rs, i, j) =>
      (match (ReadAt(h, i, Standard), ReadAt(h, j, EsWork))
       case (Some(p), Some(q)) => CommitIceberg(w, c, id, newId, workId, rs, p, q)
       case _ => w)
    case CompactionAction(k) => RecordCompaction(w, k)
    case StandardAction(names, i, j, newId, compact, k, itemId) =>
      (match (ReadAt(h, j, Standard), ReadAt(h, k, CompactionWork))
       case (Some(p), Some(q)) =>
         if i < |h| then UpdateStandard(w, names, h[i].trackers, p, newId, compact, q, itemId) else w
       case _ => w)
    case EsAction(exts, i, name, j, newId, k) =>
      (match ReadAt(h, k, Es)
       case Some(p) => if i < |h| && j < |h| then UpdateEs(w, exts, h[i].trackers, name, h[j].trackers, newId, p) else w
       case None => w)
    case WaitingDone(name, i) => if i < |h| then MarkWaitingDone(w, name, h[i].trackers) else w
    case TakeExtension(i) =>
      (match ReadAt(h, i, EsWork)
       case Some(p) => TakeExtensionItem(w, p)
       case None => w)
    case CompleteExtension(e) => CompleteExtensionItem(w, e)
    case TakeCompaction(i) =>
      (match ReadAt(h, i, CompactionWork)
       case Some(p) => TakeCompactionItem(w, p)
       case None => w)
    case ClaimCleanup(names, i, j) =>
      if i <= j < |h| then ClaimCleanupItems(w, names, h[i].trackers, h[i].now, h[j].now) else w
    case CleanupDone(name) => FinishCleanup(w, name)
    case Publish(forEs, i, j) =>
      (match ReadAt(h, i, CommittedKey(forEs))
       case Some(p) => if j < |h| then PublishActive(w, forEs, p, Describe(h[j], ActiveKey(forEs))) else w
       case None => w)
    case QueueRequest(i) => if i < |h| then RequestPublication(w, Describe(h[i], Request)) else w
    case ClearRequest(i) =>
      (match ReadAt(h, i, Request)
       case Some(p) => ClearPublication(w, p)
       case None => w)
  }

  /** A run: any interleaving of the actions of any number of workers, each with reads as stale as it likes. */
  ghost predicate IsRun(h: seq<World>, acts: seq<Action>) {
    |h| == |acts| + 1 && forall i :: 0 <= i < |h| ==> Reached(h, acts, i)
  }

  /** The first world is that of a new table, and each later one follows from those before it. */
  ghost predicate Reached(h: seq<World>, acts: seq<Action>, i: nat)
    requires |h| == |acts| + 1 && i < |h|
  {
    if i == 0 then StartsEmpty(h[0]) else StepsTo(h, acts, i - 1)
  }

  lemma StartOf(h: seq<World>, acts: seq<Action>)
    requires IsRun(h, acts)
    ensures StartsEmpty(h[0])
  {
    assert Reached(h, acts, 0);
  }

  lemma StepOf(h: seq<World>, acts: seq<Action>, i: nat)
    requires IsRun(h, acts) && i < |acts|
    ensures StepsTo(h, acts, i)
  {
    assert Reached(h, acts, i + 1);
  }

  /** World `i + 1` is what action `i` makes of the history up to world `i`. */
  ghost predicate StepsTo(h: seq<World>, acts: seq<Action>, i: nat)
    requires |h| == |acts| + 1 && i < |acts|
  {
    h[i + 1] == Next(h[..i + 1], acts[i])
  }

  ghost predicate StartsEmpty(w: World) {
    exists id :: w == Init(w.table, id, w.now) && GeneratedId(id) && ColonFree(w.table)
  }
}
