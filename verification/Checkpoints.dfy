/** Table checkpoints and the commits that advance them (`control_plane/src/data_contract.rs`).
    Where the source aborts (unknown commit type, missing schema, missing compaction, a field
    changing its type) the result is `None`. */
module Checkpoints {
  import opened Prelude
  import opened Schemas
  import opened FileSets

  datatype Segment = Segment(id: string, path: string, size: nat)

  /** `SpeedboatCommitTableInfo`, without the table name. */
  datatype TableInfo = TableInfo(
    commitType: string, segments: seq<Segment>, files: seq<string>, sizes: seq<nat>, schema: Option<Schema>)

  datatype SpeedboatCommit = SpeedboatCommit(typeFiles: seq<TableInfo>, compaction: Option<string>)

  datatype FileStats = FileStats(path: string, stats: string)

  datatype IcebergMetadata = IcebergMetadata(
    tableSchema: Schema,
    snapshotId: Option<string>,
    files: seq<FileDesc>,
    partitionSpec: seq<string>,
    sortOrder: seq<string>,
    columnNames: seq<string>,
    columnStats: seq<string>,
    accessArtifacts: seq<string>,
    fileStats: seq<FileStats>)

  datatype IcebergCommit = IcebergCommit(
    metadata: IcebergMetadata, deletesTableInfo: Option<TableInfo>, compactions: seq<string>)

  datatype CompactionCommit = CompactionCommit(
    removedSpeedboatFiles: seq<string>,
    removedDeleteFiles: seq<string>,
    parquetFileName: string,
    compactionId: string,
    checkpointIdToReplace: string)

  datatype ExtensionFile = ExtensionFile(suffix: string, location: string)

  type Coverage = map<string, seq<ExtensionFile>>

  datatype ExtensionCommit = ExtensionCommit(id: string, extension: string, files: Coverage)

  datatype Checkpoint = Checkpoint(
    tableName: string,
    originalId: Option<string>,
    id: string,
    iceberg: Option<IcebergMetadata>,
    speedboat: Option<seq<FileDesc>>,
    deletes: Option<seq<string>>,
    extensions: map<string, Coverage>,
    schema: Schema)

  type Compactions = map<string, CompactionCommit>

  function NewCheckpoint(table: string, id: string): Checkpoint {
    Checkpoint(table, None, id, None, None, None, map[], Schema([]))
  }

  // --------------------------------------------------------------- contents

  function IcebergFiles(c: Checkpoint): seq<FileDesc> {
    if c.iceberg.Some? then c.iceberg.value.files else []
  }

  function SpeedboatFiles(c: Checkpoint): seq<FileDesc> {
    if c.speedboat.Some? then c.speedboat.value else []
  }

  function DeleteFiles(c: Checkpoint): seq<string> {
    if c.deletes.Some? then c.deletes.value else []
  }

  /** `current_file_paths`. */
  function CurrentPaths(c: Checkpoint): set<string> {
    PathSet(IcebergFiles(c)) + PathSet(SpeedboatFiles(c))
  }

  function CheckpointKey(id: string): string { "__checkpoint__:" + id }

  function CoverageOf(c: Checkpoint, ext: string): Coverage {
    if ext in c.extensions then c.extensions[ext] else map[]
  }

  /** `segment_files`, reduced to what becomes a file: explicit segments win over the legacy lists. */
  function SegmentFiles(t: TableInfo): seq<(string, nat)> {
    if |t.segments| != 0 then
      seq(|t.segments|, i requires 0 <= i < |t.segments| => (t.segments[i].path, t.segments[i].size))
    else
      var n := if |t.files| <= |t.sizes| then |t.files| else |t.sizes|;
      seq(n, i requires 0 <= i < n => (t.files[i], t.sizes[i]))
  }

  /** `as_file_set_payload`: aborts without a schema. */
  function Payload(t: TableInfo): Option<seq<FileDesc>> {
    if t.schema.None? then None
    else
      var s := SegmentFiles(t);
      Some(seq(|s|, i requires 0 <= i < |s| => FileDesc(s[i].0, t.schema.value, s[i].1)))
  }

  predicate IsData(t: TableInfo) {
    t.commitType == "commit" || t.commitType == "compaction"
  }

  // ----------------------------------------------------------------- commits

  /** `retain_current_extension_metadata`. */
  function RetainCurrent(c: Checkpoint): Checkpoint {
    c.(extensions := map e | e in c.extensions ::
         map p | p in c.extensions[e] && (p in CurrentPaths(c) || p == CheckpointKey(c.id)) :: c.extensions[e][p])
  }

  function ApplyTableInfo(c: Checkpoint, t: TableInfo): Option<Checkpoint> {
    if t.commitType == "delete" then Some(c.(deletes := Some(DeleteFiles(c) + t.files)))
    else if IsData(t) then
      match Payload(t)
      case None => None
      case Some(fs) =>
        match MergeFrom(c.schema, t.schema.value)
        case None => None
        case Some(m) => Some(c.(speedboat := Some(MergeFiles(SpeedboatFiles(c), fs)), schema := m))
    else None
  }

  function ApplyTableInfos(c: Checkpoint, ts: seq<TableInfo>): Option<Checkpoint> {
    if |ts| == 0 then Some(c)
    else
      match ApplyTableInfos(c, ts[..|ts| - 1])
      case None => None
      case Some(d) => ApplyTableInfo(d, ts[|ts| - 1])
  }

  /** `get_removed_files`. */
  function Removed(ids: seq<string>, lookup: Compactions): Option<(seq<string>, seq<string>)> {
    if |ids| == 0 then Some(([], []))
    else
      match Removed(ids[..|ids| - 1], lookup)
      case None => None
      case Some(r) =>
        var id := ids[|ids| - 1];
        if id !in lookup then None
        else Some((r.0 + lookup[id].removedSpeedboatFiles, r.1 + lookup[id].removedDeleteFiles))
  }

  /** The effect of `apply_compactions` once the removed files are known. */
  function RemoveAll(c: Checkpoint, sb: seq<string>, del: seq<string>): Checkpoint {
    c.(speedboat := if c.speedboat.Some? then Some(RemoveFiles(c.speedboat.value, sb)) else None,
       deletes := if c.deletes.Some? then Some(Filter(c.deletes.value, (x: string) => x !in del)) else None,
       extensions := map e | e in c.extensions :: map p | p in c.extensions[e] && p !in sb :: c.extensions[e][p])
  }

  function ApplyCompactions(c: Checkpoint, ids: seq<string>, lookup: Compactions): Option<Checkpoint> {
    match Removed(ids, lookup)
    case None => None
    case Some(r) => Some(RemoveAll(c, r.0, r.1))
  }

  function ApplySpeedboat(c: Checkpoint, s: SpeedboatCommit, lookup: Compactions): Option<Checkpoint> {
    var start := c.(speedboat := Some(SpeedboatFiles(c)), deletes := Some(DeleteFiles(c)));
    match ApplyTableInfos(start, s.typeFiles)
    case None => None
    case Some(d) => if s.compaction.Some? then ApplyCompactions(d, [s.compaction.value], lookup) else Some(d)
  }

  function ApplyIceberg(c: Checkpoint, i: IcebergCommit, lookup: Compactions): Option<Checkpoint> {
    match MergeFrom(c.schema, i.metadata.tableSchema)
    case None => None
    case Some(m) =>
      var d := c.(iceberg := Some(i.metadata),
                  deletes := if i.deletesTableInfo.Some? then Some(DeleteFiles(c) + i.deletesTableInfo.value.files)
                             else c.deletes,
                  schema := m);
      match ApplyCompactions(d, i.compactions, lookup)
      case None => None
      case Some(e) => Some(RetainCurrent(e))
  }

  /** The entries that `add_coverage` inserts. */
  function NewCoverage(c: Checkpoint, e: ExtensionCommit): Coverage {
    map p | p in e.files && (p in CurrentPaths(c) || p == CheckpointKey(c.id)) && p !in CoverageOf(c, e.extension) ::
      e.files[p]
  }

  function AddCoverage(c: Checkpoint, e: ExtensionCommit): (Checkpoint, bool) {
    (c.(extensions := c.extensions[e.extension := CoverageOf(c, e.extension) + NewCoverage(c, e)]),
     NewCoverage(c, e) != map[])
  }

  function ApplySpeedboats(c: Checkpoint, cs: seq<SpeedboatCommit>, lookup: Compactions): Option<Checkpoint> {
    if |cs| == 0 then Some(c)
    else
      match ApplySpeedboats(c, cs[..|cs| - 1], lookup)
      case None => None
      case Some(d) => ApplySpeedboat(d, cs[|cs| - 1], lookup)
  }

  function ApplyIcebergs(c: Checkpoint, cs: seq<IcebergCommit>, lookup: Compactions): Option<Checkpoint> {
    if |cs| == 0 then Some(c)
    else
      match ApplyIcebergs(c, cs[..|cs| - 1], lookup)
      case None => None
      case Some(d) => ApplyIceberg(d, cs[|cs| - 1], lookup)
  }

  function AddCoverages(c: Checkpoint, es: seq<ExtensionCommit>): (Checkpoint, bool) {
    if |es| == 0 then (c, false)
    else
      var d := AddCoverages(c, es[..|es| - 1]);
      var e := AddCoverage(d.0, es[|es| - 1]);
      (e.0, d.1 || e.1)
  }

  /** `clone_and_apply`; `newId` is the generated checkpoint id. */
  function CloneAndApply(c: Checkpoint, newId: string, sbs: seq<SpeedboatCommit>, ics: seq<IcebergCommit>,
                         exts: seq<ExtensionCommit>, lookup: Compactions): Option<(Checkpoint, bool)>
  {
    match ApplySpeedboats(RetainCurrent(c.(id := newId)), sbs, lookup)
    case None => None
    case Some(d) =>
      match ApplyIcebergs(d, ics, lookup)
      case None => None
      case Some(e) =>
        var f := AddCoverages(e, exts);
        Some((f.0, |sbs| > 0 || |ics| > 0 || f.1))
  }

  /** `select`: the first file whose path contains the name, as a list of one. */
  function SelectFile(fs: seq<FileDesc>, name: string): Option<seq<FileDesc>> {
    if |fs| == 0 then None
    else if Contains(fs[0].path, name) then Some([fs[0]])
    else SelectFile(fs[1..], name)
  }

  predicate Contains(s: string, t: string) {
    exists i :: 0 <= i <= |s| && StartsAt(s, i, t)
  }

  predicate StartsAt(s: string, i: nat, t: string) {
    i + |t| <= |s| && s[i..i + |t|] == t
  }

  function AddStats(present: seq<FileStats>, more: seq<FileStats>): seq<FileStats> {
    if |more| == 0 then present
    else
      var r := AddStats(present, more[..|more| - 1]);
      var st := more[|more| - 1];
      if exists x :: x in r && x.path == st.path then r else r + [st]
  }

  /** `apply_compaction_for_replacement`. */
  function ApplyReplacement(c: Checkpoint, k: CompactionCommit, m: IcebergMetadata): Option<Checkpoint> {
    if c.speedboat.None? then None
    else
      match SelectFile(m.files, k.parquetFileName)
      case None => None
      case Some(file) =>
        var stats := Filter(m.fileStats, (x: FileStats) => Contains(x.path, k.parquetFileName));
        var ice :=
          if c.iceberg.None? then
            IcebergMetadata(m.tableSchema, None, file, m.partitionSpec, m.sortOrder, [], [], m.accessArtifacts, stats)
          else
            var o := c.iceberg.value;
            o.(files := MergeFiles(o.files, file),
               partitionSpec := if |o.partitionSpec| == 0 then m.partitionSpec else o.partitionSpec,
               sortOrder := if |o.sortOrder| == 0 then m.sortOrder else o.sortOrder,
               accessArtifacts := if |o.accessArtifacts| == 0 then m.accessArtifacts else o.accessArtifacts,
               fileStats := AddStats(o.fileStats, stats));
        Some(RetainCurrent(c.(
          speedboat := Some(RemoveFiles(c.speedboat.value, k.removedSpeedboatFiles)),
          deletes := if c.deletes.Some? then Some(Filter(c.deletes.value, (x: string) => x !in k.removedDeleteFiles))
                     else None,
          iceberg := Some(ice))))
  }

  // ---------------------------------------------------------- well-formedness

  ghost predicate ExtensionsCurrent(c: Checkpoint) {
    forall e, p :: e in c.extensions && p in c.extensions[e] ==> p in CurrentPaths(c) || p == CheckpointKey(c.id)
  }

  /** No path is listed twice and coverage is kept only for current files and the checkpoint itself. */
  ghost predicate WellFormedCheckpoint(c: Checkpoint) {
    && UniquePaths(IcebergFiles(c))
    && UniquePaths(SpeedboatFiles(c))
    && ExtensionsCurrent(c)
  }

  lemma {:induction false} ApplyTableInfosKeeps(c: Checkpoint, ts: seq<TableInfo>)
    requires WellFormedCheckpoint(c) && ApplyTableInfos(c, ts).Some?
    ensures var d := ApplyTableInfos(c, ts).value;
            && WellFormedCheckpoint(d)
            && d.id == c.id && d.originalId == c.originalId && d.tableName == c.tableName
            && d.iceberg == c.iceberg && d.extensions == c.extensions
            && PathSet(SpeedboatFiles(c)) <= PathSet(SpeedboatFiles(d))
  {
    if |ts| != 0 {
      var m := |ts| - 1;
      ApplyTableInfosKeeps(c, ts[..m]);
      var d := ApplyTableInfos(c, ts[..m]).value;
      if IsData(ts[m]) && ts[m].commitType != "delete" {
        MergeFilesMeaning(SpeedboatFiles(d), Payload(ts[m]).value);
      }
      assert CurrentPaths(d) <= CurrentPaths(ApplyTableInfos(c, ts).value);
    }
  }

  lemma RemoveAllKeeps(c: Checkpoint, sb: seq<string>, del: seq<string>)
    requires WellFormedCheckpoint(c)
    ensures WellFormedCheckpoint(RemoveAll(c, sb, del))
  {
    RemoveFilesMeaning(SpeedboatFiles(c), sb);
    var d := RemoveAll(c, sb, del);
    assert SpeedboatFiles(d) == RemoveFiles(SpeedboatFiles(c), sb) by {
      if c.speedboat.None? { assert RemoveFiles([], sb) == []; }
    }
    forall e, p | e in d.extensions && p in d.extensions[e]
      ensures p in CurrentPaths(d) || p == CheckpointKey(d.id)
    {
      assert e in c.extensions && p in c.extensions[e] && p !in sb;
      assert p in CurrentPaths(c) || p == CheckpointKey(c.id);
    }
  }

  /** Applying a speedboat commit keeps a checkpoint well formed. */
  lemma ApplySpeedboatKeeps(c: Checkpoint, s: SpeedboatCommit, lookup: Compactions)
    requires WellFormedCheckpoint(c) && ApplySpeedboat(c, s, lookup).Some?
    ensures var d := ApplySpeedboat(c, s, lookup).value;
            && WellFormedCheckpoint(d) && d.iceberg == c.iceberg
            && d.id == c.id && d.originalId == c.originalId && d.tableName == c.tableName
  {
    var start := c.(speedboat := Some(SpeedboatFiles(c)), deletes := Some(DeleteFiles(c)));
    assert CurrentPaths(start) == CurrentPaths(c);
    ApplyTableInfosKeeps(start, s.typeFiles);
    if s.compaction.Some? {
      var r := Removed([s.compaction.value], lookup).value;
      RemoveAllKeeps(ApplyTableInfos(start, s.typeFiles).value, r.0, r.1);
    }
  }

  /** Applying an Iceberg commit keeps a checkpoint well formed, and drops stale coverage. */
  lemma ApplyIcebergKeeps(c: Checkpoint, i: IcebergCommit, lookup: Compactions)
    requires UniquePaths(SpeedboatFiles(c)) && UniquePaths(i.metadata.files)
    requires ApplyIceberg(c, i, lookup).Some?
    ensures var d := ApplyIceberg(c, i, lookup).value;
            && WellFormedCheckpoint(d)
            && d.id == c.id && d.originalId == c.originalId && d.tableName == c.tableName
  {
    var r := Removed(i.compactions, lookup).value;
    RemoveFilesMeaning(SpeedboatFiles(c), r.0);
  }

  lemma AddCoverageKeeps(c: Checkpoint, e: ExtensionCommit)
    requires WellFormedCheckpoint(c)
    ensures var d := AddCoverage(c, e).0;
            && WellFormedCheckpoint(d)
            && d == c.(extensions := d.extensions)
  {
    var d := AddCoverage(c, e).0;
    forall x, p | x in d.extensions && p in d.extensions[x]
      ensures p in CurrentPaths(d) || p == CheckpointKey(d.id)
    {
      assert CurrentPaths(d) == CurrentPaths(c);
      if x != e.extension || p in CoverageOf(c, e.extension) {
        assert x in c.extensions && p in c.extensions[x];
      }
    }
  }

  lemma {:induction false} ApplySpeedboatsKeep(c: Checkpoint, cs: seq<SpeedboatCommit>, lookup: Compactions)
    requires WellFormedCheckpoint(c) && ApplySpeedboats(c, cs, lookup).Some?
    ensures var d := ApplySpeedboats(c, cs, lookup).value;
            && WellFormedCheckpoint(d) && d.iceberg == c.iceberg
            && d.id == c.id && d.originalId == c.originalId && d.tableName == c.tableName
  {
    if |cs| != 0 {
      ApplySpeedboatsKeep(c, cs[..|cs| - 1], lookup);
      ApplySpeedboatKeeps(ApplySpeedboats(c, cs[..|cs| - 1], lookup).value, cs[|cs| - 1], lookup);
    }
  }

  lemma {:induction false} ApplyIcebergsKeep(c: Checkpoint, cs: seq<IcebergCommit>, lookup: Compactions)
    requires WellFormedCheckpoint(c) && ApplyIcebergs(c, cs, lookup).Some?
    requires forall i :: 0 <= i < |cs| ==> UniquePaths(cs[i].metadata.files)
    ensures var d := ApplyIcebergs(c, cs, lookup).value;
            && WellFormedCheckpoint(d)
            && d.id == c.id && d.originalId == c.originalId && d.tableName == c.tableName
  {
    if |cs| != 0 {
      ApplyIcebergsKeep(c, cs[..|cs| - 1], lookup);
      ApplyIcebergKeeps(ApplyIcebergs(c, cs[..|cs| - 1], lookup).value, cs[|cs| - 1], lookup);
    }
  }

  lemma {:induction false} AddCoveragesKeep(c: Checkpoint, es: seq<ExtensionCommit>)
    requires WellFormedCheckpoint(c)
    ensures var d := AddCoverages(c, es).0;
            && WellFormedCheckpoint(d)
            && d == c.(extensions := d.extensions)
  {
    if |es| != 0 {
      AddCoveragesKeep(c, es[..|es| - 1]);
      AddCoverageKeeps(AddCoverages(c, es[..|es| - 1]).0, es[|es| - 1]);
    }
  }

  /** Whatever is applied, a clone of a checkpoint without duplicate paths is well formed. */
  lemma CloneAndApplyKeeps(c: Checkpoint, newId: string, sbs: seq<SpeedboatCommit>, ics: seq<IcebergCommit>,
                           exts: seq<ExtensionCommit>, lookup: Compactions)
    requires UniquePaths(IcebergFiles(c)) && UniquePaths(SpeedboatFiles(c))
    requires forall i :: 0 <= i < |ics| ==> UniquePaths(ics[i].metadata.files)
    requires CloneAndApply(c, newId, sbs, ics, exts, lookup).Some?
    ensures var d := CloneAndApply(c, newId, sbs, ics, exts, lookup).value.0;
            && WellFormedCheckpoint(d)
            && d.id == newId && d.originalId == c.originalId && d.tableName == c.tableName
  {
    var start := RetainCurrent(c.(id := newId));
    ApplySpeedboatsKeep(start, sbs, lookup);
    var d := ApplySpeedboats(start, sbs, lookup).value;
    ApplyIcebergsKeep(d, ics, lookup);
    AddCoveragesKeep(ApplyIcebergs(d, ics, lookup).value, exts);
  }

  lemma {:induction false} SelectFileMeaning(fs: seq<FileDesc>, name: string)
    ensures SelectFile(fs, name).Some? <==> exists d :: d in fs && Contains(d.path, name)
    ensures SelectFile(fs, name).Some? ==>
              exists i :: 0 <= i < |fs| && FirstNamed(fs, i, name) && SelectFile(fs, name).value == [fs[i]]
  {
    if |fs| != 0 && !Contains(fs[0].path, name) {
      SelectFileMeaning(fs[1..], name);
      assert forall d :: d in fs <==> d == fs[0] || d in fs[1..];
      if SelectFile(fs, name).Some? {
        var i :| 0 <= i < |fs| - 1 && FirstNamed(fs[1..], i, name) && SelectFile(fs[1..], name).value == [fs[1..][i]];
        FirstNamedLater(fs, i, name);
      }
    }
  }

  /** File `i` is the first one whose path contains the name. */
  predicate FirstNamed(fs: seq<FileDesc>, i: nat, name: string) {
    i < |fs| && Contains(fs[i].path, name) && forall j :: 0 <= j < i ==> !Contains(fs[j].path, name)
  }

  lemma FirstNamedLater(fs: seq<FileDesc>, i: nat, name: string)
    requires |fs| > 0 && !Contains(fs[0].path, name) && FirstNamed(fs[1..], i, name)
    ensures FirstNamed(fs, i + 1, name) && fs[i + 1] == fs[1..][i]
  {
    forall j | 0 <= j < i + 1
      ensures !Contains(fs[j].path, name)
    {
      if j > 0 { assert fs[j] == fs[1..][j - 1]; }
    }
  }

  /** The replacement checkpoint is well formed, holds the new parquet file, and lost the compacted files. */
  lemma ApplyReplacementKeeps(c: Checkpoint, k: CompactionCommit, m: IcebergMetadata)
    requires UniquePaths(IcebergFiles(c)) && UniquePaths(SpeedboatFiles(c))
    requires ApplyReplacement(c, k, m).Some?
    ensures var d := ApplyReplacement(c, k, m).value;
            && WellFormedCheckpoint(d)
            && PathSet(SpeedboatFiles(d)) == PathSet(SpeedboatFiles(c)) - (set p | p in k.removedSpeedboatFiles)
            && PathSet(IcebergFiles(d))
               == PathSet(IcebergFiles(c)) + PathSet(SelectFile(m.files, k.parquetFileName).value)
            && (forall x :: x in DeleteFiles(d) <==> x in DeleteFiles(c) && x !in k.removedDeleteFiles)
  {
    var file := SelectFile(m.files, k.parquetFileName).value;
    SelectFileMeaning(m.files, k.parquetFileName);
    RemoveFilesMeaning(SpeedboatFiles(c), k.removedSpeedboatFiles);
    MergeFilesMeaning(IcebergFiles(c), file);
  }

  // ---------------------------------------------------------------- coverage

  /** `fully_covered_for_extension`: compares two counts. */
  function CoveredByCount(c: Checkpoint, ext: string): bool {
    |CurrentPaths(c)| == |CoverageOf(c, ext).Keys * CurrentPaths(c)|
  }

  /** `validate_fully_covered_for_extension`: looks up every file. */
  predicate CoveredByLookup(c: Checkpoint, ext: string) {
    && (forall i :: 0 <= i < |IcebergFiles(c)| ==> IcebergFiles(c)[i].path in CoverageOf(c, ext))
    && (forall i :: 0 <= i < |SpeedboatFiles(c)| ==> SpeedboatFiles(c)[i].path in CoverageOf(c, ext))
  }

  lemma SubsetSize<T>(a: set<T>, b: set<T>)
    requires a <= b
    ensures |a| <= |b| && (|a| == |b| ==> a == b)
  {
    assert b == a + (b - a);
  }

  /** The two definitions that the source asserts equal always agree. */
  lemma CoverageDefinitionsAgree(c: Checkpoint, ext: string)
    ensures CoveredByCount(c, ext) <==> CoveredByLookup(c, ext)
  {
    var cur, keys := CurrentPaths(c), CoverageOf(c, ext).Keys;
    SubsetSize(keys * cur, cur);
    if CoveredByLookup(c, ext) {
      assert cur <= keys;
      assert keys * cur == cur;
    }
    if CoveredByCount(c, ext) {
      assert cur <= keys;
      assert forall i :: 0 <= i < |IcebergFiles(c)| ==> IcebergFiles(c)[i] in IcebergFiles(c);
      assert forall i :: 0 <= i < |SpeedboatFiles(c)| ==> SpeedboatFiles(c)[i] in SpeedboatFiles(c);
      assert forall i :: 0 <= i < |IcebergFiles(c)| ==> IcebergFiles(c)[i].path in cur;
      assert forall i :: 0 <= i < |SpeedboatFiles(c)| ==> SpeedboatFiles(c)[i].path in cur;
    }
  }

  lemma {:induction false} AddCoveragesCover(c: Checkpoint, es: seq<ExtensionCommit>, ext: string)
    ensures CoverageOf(AddCoverages(c, es).0, ext).Keys >= CoverageOf(c, ext).Keys
    ensures forall i, p :: 0 <= i < |es| && es[i].extension == ext && p in es[i].files && p in CurrentPaths(c) ==>
              p in CoverageOf(AddCoverages(c, es).0, ext)
    ensures AddCoverages(c, es).0 == c.(extensions := AddCoverages(c, es).0.extensions)
  {
    if |es| != 0 {
      AddCoveragesCover(c, es[..|es| - 1], ext);
    }
  }

  /** Extension commits that together name every current file make the checkpoint fully covered. */
  lemma CommitsCoverCheckpoint(c: Checkpoint, es: seq<ExtensionCommit>, ext: string)
    requires forall p :: p in CurrentPaths(c) ==>
               exists i :: 0 <= i < |es| && es[i].extension == ext && p in es[i].files
    ensures CoveredByCount(AddCoverages(c, es).0, ext)
  {
    AddCoveragesCover(c, es, ext);
    var d := AddCoverages(c, es).0;
    assert CurrentPaths(d) == CurrentPaths(c);
    assert CurrentPaths(d) <= CoverageOf(d, ext).Keys;
    assert CoverageOf(d, ext).Keys * CurrentPaths(d) == CurrentPaths(d);
  }
}
