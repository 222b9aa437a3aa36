/** What a commit does to the contents of a checkpoint: its schema, its files, its deletes and its coverage. */
module CheckpointContents {
  import opened Prelude
  import opened Schemas
  import opened SchemaMerging
  import opened FileSets
  import opened Checkpoints

  // ------------------------------------------------------------ folding schemas

  lemma MergeEachMore(a: seq<Schema>, s: Schema)
    requires |a| > 0
    ensures MergeEach(a).Some? ==> MergeEach(a + [s]) == MergeFrom(MergeEach(a).value, s)
    ensures MergeEach(a).None? ==> MergeEach(a + [s]).None?
  {
    assert (a + [s])[..|a|] == a;
  }

  lemma {:induction false} MergeEachConcat(a: seq<Schema>, b: seq<Schema>)
    requires |a| > 0
    ensures MergeEach(a).Some? ==> MergeEach(a + b) == MergeEach([MergeEach(a).value] + b)
    ensures MergeEach(a).None? ==> MergeEach(a + b).None?
  {
    if |b| == 0 {
      assert a + b == a;
      if MergeEach(a).Some? { assert [MergeEach(a).value] + b == [MergeEach(a).value]; }
    } else {
      var m := |b| - 1;
      MergeEachConcat(a, b[..m]);
      assert a + b == (a + b[..m]) + [b[m]];
      MergeEachMore(a + b[..m], b[m]);
      if MergeEach(a).Some? {
        assert [MergeEach(a).value] + b == ([MergeEach(a).value] + b[..m]) + [b[m]];
        MergeEachMore([MergeEach(a).value] + b[..m], b[m]);
      }
    }
  }

  // ------------------------------------------------------- the infos of a commit

  predicate IsInsert(t: TableInfo) { t.commitType == "commit" || t.commitType == "compaction" }

  /** The info is of a known kind, and has a schema if it brings data. */
  predicate Known(t: TableInfo) { t.commitType == "delete" || (IsInsert(t) && t.schema.Some?) }

  /** The schemas of the data that is brought, in order. */
  function DataSchemas(ts: seq<TableInfo>): seq<Schema> {
    if |ts| == 0 then []
    else
      var t := ts[|ts| - 1];
      DataSchemas(ts[..|ts| - 1]) + if IsInsert(t) && t.schema.Some? then [t.schema.value] else []
  }

  /** The delete files that are brought, in order. */
  function DeleteNames(ts: seq<TableInfo>): seq<string> {
    if |ts| == 0 then [] else DeleteNames(ts[..|ts| - 1]) + InfoDeletes(ts[|ts| - 1])
  }

  function InfoDeletes(t: TableInfo): seq<string> { if t.commitType == "delete" then t.files else [] }

  /** One file of an info: explicit segments win over the legacy lists. */
  function FileAt(t: TableInfo, s: Schema, i: nat): FileDesc
    requires i < FileCount(t)
  {
    if t.segments != [] then FileDesc(t.segments[i].path, s, t.segments[i].size)
    else FileDesc(t.files[i], s, t.sizes[i])
  }

  function FileCount(t: TableInfo): nat {
    if t.segments != [] then |t.segments| else if |t.files| < |t.sizes| then |t.files| else |t.sizes|
  }

  function InfoFiles(t: TableInfo): seq<FileDesc> {
    if IsInsert(t) && t.schema.Some? then
      seq(FileCount(t), i requires 0 <= i < FileCount(t) => FileAt(t, t.schema.value, i))
    else []
  }

  /** The data files that are brought, in order. */
  function DataFiles(ts: seq<TableInfo>): seq<FileDesc> {
    if |ts| == 0 then [] else DataFiles(ts[..|ts| - 1]) + InfoFiles(ts[|ts| - 1])
  }

  lemma PayloadFiles(t: TableInfo)
    requires IsInsert(t)
    ensures t.schema.None? ==> Payload(t).None?
    ensures t.schema.Some? ==> Payload(t) == Some(InfoFiles(t))
  {
    if t.schema.Some? {
      assert |SegmentFiles(t)| == FileCount(t);
      assert Payload(t).value == InfoFiles(t);
    }
  }

  lemma {:induction false} MergeFilesConcat(fs: seq<FileDesc>, a: seq<FileDesc>, b: seq<FileDesc>)
    ensures MergeFiles(fs, a + b) == MergeFiles(MergeFiles(fs, a), b)
  {
    if |b| == 0 {
      assert a + b == a;
    } else {
      var m := |b| - 1;
      MergeFilesConcat(fs, a, b[..m]);
      assert (a + b)[..|a + b| - 1] == a + b[..m];
    }
  }

  predicate AllKnown(ts: seq<TableInfo>) { forall i :: 0 <= i < |ts| ==> Known(ts[i]) }

  lemma KnownMore(ts: seq<TableInfo>)
    requires |ts| > 0
    ensures AllKnown(ts) <==> AllKnown(ts[..|ts| - 1]) && Known(ts[|ts| - 1])
  {
    assert forall i :: 0 <= i < |ts| - 1 ==> ts[i] == ts[..|ts| - 1][i];
  }

  lemma SchemasMore(s: Schema, ts: seq<TableInfo>)
    requires |ts| > 0
    ensures var t, before := ts[|ts| - 1], [s] + DataSchemas(ts[..|ts| - 1]);
            [s] + DataSchemas(ts) == if IsInsert(t) && t.schema.Some? then before + [t.schema.value] else before
  {
  }

  /** One more info applies exactly when it is known and its schema merges. */
  lemma InfoApplies(c: Checkpoint, t: TableInfo)
    ensures ApplyTableInfo(c, t).Some? <==> Known(t) && (IsInsert(t) ==> MergeFrom(c.schema, t.schema.value).Some?)
    ensures ApplyTableInfo(c, t).Some? && IsInsert(t) ==>
              MergeFrom(c.schema, t.schema.value) == Some(ApplyTableInfo(c, t).value.schema)
    ensures ApplyTableInfo(c, t).Some? && !IsInsert(t) ==> ApplyTableInfo(c, t).value.schema == c.schema
  {
    if IsInsert(t) { PayloadFiles(t); }
  }

  /** A list of infos applies exactly when all are of known kinds and their schemas merge into the checkpoint's. */
  lemma {:induction false} InfosApply(c: Checkpoint, ts: seq<TableInfo>)
    ensures ApplyTableInfos(c, ts).Some? <==> AllKnown(ts) && MergeEach([c.schema] + DataSchemas(ts)).Some?
    ensures ApplyTableInfos(c, ts).Some? ==>
              MergeEach([c.schema] + DataSchemas(ts)) == Some(ApplyTableInfos(c, ts).value.schema)
  {
    if |ts| == 0 {
      assert [c.schema] + DataSchemas(ts) == [c.schema];
    } else {
      var m := |ts| - 1;
      InfosApply(c, ts[..m]);
      KnownMore(ts);
      SchemasMore(c.schema, ts);
      if ApplyTableInfos(c, ts[..m]).Some? { InfoApplies(ApplyTableInfos(c, ts[..m]).value, ts[m]); }
      if IsInsert(ts[m]) && ts[m].schema.Some? {
        MergeEachMore([c.schema] + DataSchemas(ts[..m]), ts[m].schema.value);
      }
    }
  }

  /** The checkpoint with more files, more deletes and another schema. */
  function Grown(c: Checkpoint, fs: seq<FileDesc>, deletes: seq<string>, schema: Schema): Checkpoint
    requires c.speedboat.Some? && c.deletes.Some?
  {
    c.(speedboat := Some(MergeFiles(c.speedboat.value, fs)), deletes := Some(c.deletes.value + deletes),
       schema := schema)
  }

  lemma GrownTwice(c: Checkpoint, fs: seq<FileDesc>, ds: seq<string>, s: Schema, gs: seq<FileDesc>, es: seq<string>,
                   t: Schema)
    requires c.speedboat.Some? && c.deletes.Some?
    ensures Grown(Grown(c, fs, ds, s), gs, es, t) == Grown(c, fs + gs, ds + es, t)
  {
    MergeFilesConcat(c.speedboat.value, fs, gs);
    assert (c.deletes.value + ds) + es == c.deletes.value + (ds + es);
  }

  lemma InfoContents(c: Checkpoint, t: TableInfo)
    requires ApplyTableInfo(c, t).Some? && c.speedboat.Some? && c.deletes.Some?
    ensures ApplyTableInfo(c, t).value == Grown(c, InfoFiles(t), InfoDeletes(t), ApplyTableInfo(c, t).value.schema)
  {
    InfoApplies(c, t);
    if IsInsert(t) {
      PayloadFiles(t);
      assert c.deletes.value + [] == c.deletes.value;
    }
  }

  /** What the infos bring is merged in, and nothing else changes. */
  lemma {:induction false} InfosContents(c: Checkpoint, ts: seq<TableInfo>)
    requires ApplyTableInfos(c, ts).Some? && c.speedboat.Some? && c.deletes.Some?
    ensures ApplyTableInfos(c, ts).value
            == Grown(c, DataFiles(ts), DeleteNames(ts), ApplyTableInfos(c, ts).value.schema)
  {
    if |ts| == 0 {
      assert c.deletes.value + [] == c.deletes.value;
    } else {
      var m := |ts| - 1;
      var d := ApplyTableInfos(c, ts[..m]).value;
      InfosContents(c, ts[..m]);
      InfoContents(d, ts[m]);
      GrownTwice(c, DataFiles(ts[..m]), DeleteNames(ts[..m]), d.schema, InfoFiles(ts[m]), InfoDeletes(ts[m]),
                 ApplyTableInfos(c, ts).value.schema);
    }
  }

  // --------------------------------------------------------- the removed files

  /** Some listed compaction names the speedboat file. */
  ghost predicate NamesFile(ids: seq<string>, lookup: Compactions, p: string) {
    exists id :: id in ids && id in lookup && p in lookup[id].removedSpeedboatFiles
  }

  /** Some listed compaction names the delete file. */
  ghost predicate NamesDelete(ids: seq<string>, lookup: Compactions, p: string) {
    exists id :: id in ids && id in lookup && p in lookup[id].removedDeleteFiles
  }

  lemma {:induction false} RemovedMeans(ids: seq<string>, lookup: Compactions, p: string)
    ensures Removed(ids, lookup).Some? <==> forall id :: id in ids ==> id in lookup
    ensures Removed(ids, lookup).Some? ==>
              && (p in Removed(ids, lookup).value.0 <==> NamesFile(ids, lookup, p))
              && (p in Removed(ids, lookup).value.1 <==> NamesDelete(ids, lookup, p))
  {
    if |ids| != 0 {
      var m := |ids| - 1;
      RemovedMeans(ids[..m], lookup, p);
      assert forall id :: id in ids <==> id in ids[..m] || id == ids[m];
    }
  }

  // ------------------------------------------------------------ a speedboat commit

  function SpeedboatIds(s: SpeedboatCommit): seq<string> {
    if s.compaction.Some? then [s.compaction.value] else []
  }

  function Started(c: Checkpoint): Checkpoint {
    c.(speedboat := Some(SpeedboatFiles(c)), deletes := Some(DeleteFiles(c)))
  }

  lemma SpeedboatUnfolds(c: Checkpoint, s: SpeedboatCommit, lookup: Compactions)
    ensures ApplySpeedboat(c, s, lookup).Some? <==>
              ApplyTableInfos(Started(c), s.typeFiles).Some? && Removed(SpeedboatIds(s), lookup).Some?
    ensures ApplySpeedboat(c, s, lookup).Some? ==>
              var applied, r := ApplyTableInfos(Started(c), s.typeFiles).value, Removed(SpeedboatIds(s), lookup).value;
              ApplySpeedboat(c, s, lookup).value == if s.compaction.Some? then RemoveAll(applied, r.0, r.1) else applied
  {
  }

  /** A speedboat commit applies exactly when its infos are known, its schemas merge and its compaction is announced. */
  lemma SpeedboatApplies(c: Checkpoint, s: SpeedboatCommit, lookup: Compactions)
    ensures ApplySpeedboat(c, s, lookup).Some? <==>
              && AllKnown(s.typeFiles) && MergeEach([c.schema] + DataSchemas(s.typeFiles)).Some?
              && (s.compaction.Some? ==> s.compaction.value in lookup)
  {
    var start := Started(c);
    SpeedboatUnfolds(c, s, lookup);
    InfosApply(start, s.typeFiles);
    RemovedMeans(SpeedboatIds(s), lookup, "");
    if s.compaction.Some? { assert s.compaction.value in SpeedboatIds(s); }
  }

  /** Its schema is that of the checkpoint with the schemas of its data merged in, in order. */
  lemma SpeedboatSchema(c: Checkpoint, s: SpeedboatCommit, lookup: Compactions)
    requires ApplySpeedboat(c, s, lookup).Some?
    ensures MergeEach([c.schema] + DataSchemas(s.typeFiles)) == Some(ApplySpeedboat(c, s, lookup).value.schema)
  {
    var start := Started(c);
    SpeedboatUnfolds(c, s, lookup);
    InfosApply(start, s.typeFiles);
  }

  lemma {:induction false} DataSchemaIn(ts: seq<TableInfo>, i: nat)
    requires i < |ts| && IsInsert(ts[i]) && ts[i].schema.Some?
    ensures ts[i].schema.value in DataSchemas(ts)
  {
    if i < |ts| - 1 { DataSchemaIn(ts[..|ts| - 1], i); }
  }

  predicate InfosWellFormed(ts: seq<TableInfo>) {
    forall i :: 0 <= i < |ts| && ts[i].schema.Some? ==> WellFormedSchema(ts[i].schema.value)
  }

  lemma {:induction false} DataSchemasFrom(ts: seq<TableInfo>, s: Schema)
    requires s in DataSchemas(ts)
    ensures exists i :: 0 <= i < |ts| && IsInsert(ts[i]) && ts[i].schema == Some(s)
  {
    var m := |ts| - 1;
    if s in DataSchemas(ts[..m]) {
      DataSchemasFrom(ts[..m], s);
      var i :| 0 <= i < m && IsInsert(ts[..m][i]) && ts[..m][i].schema == Some(s);
      assert ts[i].schema == Some(s);
    } else {
      assert ts[m].schema == Some(s);
    }
  }

  lemma DataWellFormed(s: Schema, ts: seq<TableInfo>)
    requires WellFormedSchema(s) && InfosWellFormed(ts)
    ensures AllWellFormed([s] + DataSchemas(ts))
  {
    var a := [s] + DataSchemas(ts);
    forall i | 0 <= i < |a|
      ensures WellFormedSchema(a[i])
    {
      if i > 0 {
        assert a[i] in DataSchemas(ts);
        DataSchemasFrom(ts, a[i]);
      }
    }
  }

  /** The bound is above the schema and above the schemas of all the data. */
  predicate DataBounded(s: Schema, ts: seq<TableInfo>, bound: Schema) {
    && LeqSchema(s, bound)
    && forall i :: 0 <= i < |ts| && IsInsert(ts[i]) && ts[i].schema.Some? ==> LeqSchema(ts[i].schema.value, bound)
  }

  lemma BoundsData(s: Schema, ts: seq<TableInfo>, bound: Schema)
    requires DataBounded(s, ts, bound)
    ensures Bounds(bound, [s] + DataSchemas(ts))
  {
    var a := [s] + DataSchemas(ts);
    forall i | 0 <= i < |a|
      ensures LeqSchema(a[i], bound)
    {
      if i > 0 {
        assert a[i] in DataSchemas(ts);
        DataSchemasFrom(ts, a[i]);
      }
    }
  }

  lemma DataBelow(s: Schema, ts: seq<TableInfo>, bound: Schema)
    requires Bounds(bound, [s] + DataSchemas(ts))
    ensures DataBounded(s, ts, bound)
  {
    var a := [s] + DataSchemas(ts);
    assert a[0] == s;
    forall i | 0 <= i < |ts| && IsInsert(ts[i]) && ts[i].schema.Some?
      ensures LeqSchema(ts[i].schema.value, bound)
    {
      DataSchemaIn(ts, i);
      var j :| 0 <= j < |DataSchemas(ts)| && DataSchemas(ts)[j] == ts[i].schema.value;
      assert a[j + 1] == ts[i].schema.value;
    }
  }

  /** The new schema is above that of the checkpoint and of all the data, and is the least that is. */
  lemma SpeedboatSchemaJoins(c: Checkpoint, s: SpeedboatCommit, lookup: Compactions, bound: Schema)
    requires ApplySpeedboat(c, s, lookup).Some? && WellFormedSchema(c.schema) && InfosWellFormed(s.typeFiles)
    ensures var schema := ApplySpeedboat(c, s, lookup).value.schema;
            && WellFormedSchema(schema) && DataBounded(c.schema, s.typeFiles, schema)
            && (WellFormedSchema(bound) && DataBounded(c.schema, s.typeFiles, bound) ==> LeqSchema(schema, bound))
  {
    var a := [c.schema] + DataSchemas(s.typeFiles);
    SpeedboatSchema(c, s, lookup);
    DataWellFormed(c.schema, s.typeFiles);
    MergeEachUpper(a);
    DataBelow(c.schema, s.typeFiles, ApplySpeedboat(c, s, lookup).value.schema);
    if WellFormedSchema(bound) && DataBounded(c.schema, s.typeFiles, bound) {
      BoundsData(c.schema, s.typeFiles, bound);
      MergeEachLeast(a, bound);
    }
  }

  /** Its data files are appended unless they are listed already, its delete files are appended, and what its
      compaction names is taken out of both. */
  lemma SpeedboatContents(c: Checkpoint, s: SpeedboatCommit, lookup: Compactions, d: FileDesc, x: string)
    requires ApplySpeedboat(c, s, lookup).Some?
    ensures var e := ApplySpeedboat(c, s, lookup).value;
            && e.speedboat.Some? && e.deletes.Some?
            && (d in e.speedboat.value <==>
                  && d in MergeFiles(SpeedboatFiles(c), DataFiles(s.typeFiles))
                  && !NamesFile(SpeedboatIds(s), lookup, d.path))
            && (x in e.deletes.value <==>
                  x in DeleteFiles(c) + DeleteNames(s.typeFiles) && !NamesDelete(SpeedboatIds(s), lookup, x))
    ensures s.compaction.None? ==>
              var e := ApplySpeedboat(c, s, lookup).value;
              && e.speedboat == Some(MergeFiles(SpeedboatFiles(c), DataFiles(s.typeFiles)))
              && e.deletes == Some(DeleteFiles(c) + DeleteNames(s.typeFiles)) && e.extensions == c.extensions
  {
    var start := Started(c);
    SpeedboatUnfolds(c, s, lookup);
    InfosContents(start, s.typeFiles);
    RemovedMeans(SpeedboatIds(s), lookup, d.path);
    RemovedMeans(SpeedboatIds(s), lookup, x);
    if s.compaction.Some? {
      var r := Removed(SpeedboatIds(s), lookup).value;
      RemoveFilesMeaning(MergeFiles(SpeedboatFiles(c), DataFiles(s.typeFiles)), r.0);
    }
  }

  // ------------------------------------------------------------- an Iceberg commit

  /** An Iceberg commit applies exactly when its schema merges and its compactions are announced. */
  lemma IcebergApplies(c: Checkpoint, i: IcebergCommit, lookup: Compactions)
    ensures ApplyIceberg(c, i, lookup).Some? <==>
              MergeFrom(c.schema, i.metadata.tableSchema).Some? && forall k :: k in i.compactions ==> k in lookup
  {
    RemovedMeans(i.compactions, lookup, "");
  }

  /** Its list becomes the list of Iceberg files, its schema is merged in, and what its compactions name is taken out
      of the speedboat and the delete files. */
  lemma IcebergContents(c: Checkpoint, i: IcebergCommit, lookup: Compactions, d: FileDesc, x: string)
    requires ApplyIceberg(c, i, lookup).Some?
    ensures var e := ApplyIceberg(c, i, lookup).value;
            && e.iceberg == Some(i.metadata) && MergeFrom(c.schema, i.metadata.tableSchema) == Some(e.schema)
            && (d in SpeedboatFiles(e) <==> d in SpeedboatFiles(c) && !NamesFile(i.compactions, lookup, d.path))
            && (x in DeleteFiles(e) <==>
                  && (x in DeleteFiles(c) || (i.deletesTableInfo.Some? && x in i.deletesTableInfo.value.files))
                  && !NamesDelete(i.compactions, lookup, x))
  {
    RemovedMeans(i.compactions, lookup, d.path);
    RemovedMeans(i.compactions, lookup, x);
    RemoveFilesMeaning(SpeedboatFiles(c), Removed(i.compactions, lookup).value.0);
  }

  /** Coverage of a file is kept, with its value, exactly when the file is still current and was not compacted. */
  lemma IcebergCoverage(c: Checkpoint, i: IcebergCommit, lookup: Compactions, ext: string, p: string)
    requires ApplyIceberg(c, i, lookup).Some?
    ensures var e := ApplyIceberg(c, i, lookup).value;
            && (p in CoverageOf(e, ext) <==>
                  && p in CoverageOf(c, ext) && !NamesFile(i.compactions, lookup, p)
                  && (p in CurrentPaths(e) || p == CheckpointKey(c.id)))
            && (p in CoverageOf(e, ext) ==> CoverageOf(e, ext)[p] == CoverageOf(c, ext)[p])
  {
    RemovedMeans(i.compactions, lookup, p);
  }

  /** A clone keeps coverage, with its value, exactly of the current files and of its own name. */
  lemma RetainedCoverage(c: Checkpoint, ext: string, p: string)
    ensures var e := RetainCurrent(c);
            && e == c.(extensions := e.extensions)
            && (p in CoverageOf(e, ext) <==>
                  p in CoverageOf(c, ext) && (p in CurrentPaths(c) || p == CheckpointKey(c.id)))
            && (p in CoverageOf(e, ext) ==> CoverageOf(e, ext)[p] == CoverageOf(c, ext)[p])
  {
  }

  /** The commit covers a current file, or the checkpoint itself, that had no coverage. */
  predicate Gains(c: Checkpoint, e: ExtensionCommit, p: string) {
    p !in CoverageOf(c, e.extension) && p in e.files && (p in CurrentPaths(c) || p == CheckpointKey(c.id))
  }

  /** Coverage is added exactly there, nothing is overwritten, and a change is reported exactly if there is one. */
  lemma AddedCoverage(c: Checkpoint, e: ExtensionCommit, ext: string, p: string)
    ensures var d := AddCoverage(c, e).0;
            && (p in CoverageOf(d, ext) <==> p in CoverageOf(c, ext) || (ext == e.extension && Gains(c, e, p)))
            && (p in CoverageOf(c, ext) ==> CoverageOf(d, ext)[p] == CoverageOf(c, ext)[p])
            && (ext == e.extension && Gains(c, e, p) ==> CoverageOf(d, ext)[p] == e.files[p])
    ensures AddCoverage(c, e).1 <==> exists q :: Gains(c, e, q)
  {
    var more := NewCoverage(c, e);
    assert forall q :: q in more <==> Gains(c, e, q);
    if more != map[] {
      var q :| q in more.Keys;
      assert Gains(c, e, q);
    }
  }

  /** Commit `i` adds coverage to what the ones before it have left. */
  ghost predicate AddsAt(c: Checkpoint, es: seq<ExtensionCommit>, i: nat) {
    i < |es| && exists p :: Gains(AddCoverages(c, es[..i]).0, es[i], p)
  }

  lemma AddsBefore(c: Checkpoint, es: seq<ExtensionCommit>, m: nat, i: nat)
    requires i < m <= |es|
    ensures AddsAt(c, es[..m], i) <==> AddsAt(c, es, i)
  {
    assert es[..m][..i] == es[..i] && es[..m][i] == es[i];
  }

  lemma {:induction false} CoveragesChange(c: Checkpoint, es: seq<ExtensionCommit>)
    ensures AddCoverages(c, es).1 <==> exists i :: AddsAt(c, es, i)
  {
    if |es| != 0 {
      var m := |es| - 1;
      CoveragesChange(c, es[..m]);
      AddedCoverage(AddCoverages(c, es[..m]).0, es[m], "", "");
      assert AddsAt(c, es, m) <==> AddCoverage(AddCoverages(c, es[..m]).0, es[m]).1;
      forall i: nat | i < m
        ensures AddsAt(c, es[..m], i) <==> AddsAt(c, es, i)
      {
        AddsBefore(c, es, m, i);
      }
    }
  }

  /** Applying commits reports a change exactly if there are commits, or some extension commit adds coverage. */
  lemma CloneChanges(c: Checkpoint, newId: string, sbs: seq<SpeedboatCommit>, ics: seq<IcebergCommit>,
                     exts: seq<ExtensionCommit>, lookup: Compactions, d: Checkpoint, e: Checkpoint)
    requires ApplySpeedboats(RetainCurrent(c.(id := newId)), sbs, lookup) == Some(d)
    requires ApplyIcebergs(d, ics, lookup) == Some(e)
    ensures CloneAndApply(c, newId, sbs, ics, exts, lookup).Some?
    ensures CloneAndApply(c, newId, sbs, ics, exts, lookup).value.1 <==>
              |sbs| > 0 || |ics| > 0 || exists i :: AddsAt(e, exts, i)
  {
    CoveragesChange(e, exts);
  }

  // ------------------------------------------------------------ replaced checkpoints

  predicate HasStats(s: seq<FileStats>, p: string) { exists i :: 0 <= i < |s| && s[i].path == p }

  /** The new statistics come last: one for each path that had none, and for no other path. */
  predicate AddsStats(present: seq<FileStats>, more: seq<FileStats>, r: seq<FileStats>) {
    && present <= r
    && (forall i :: |present| <= i < |r| ==> r[i] in more && !HasStats(r[..i], r[i].path))
    && (forall st :: st in more ==> HasStats(r, st.path))
  }

  lemma StatsMore(s: seq<FileStats>, st: FileStats, p: string)
    ensures HasStats(s + [st], p) <==> HasStats(s, p) || st.path == p
  {
    if HasStats(s, p) {
      var i :| 0 <= i < |s| && s[i].path == p;
      assert (s + [st])[i].path == p;
    }
    if st.path == p { assert (s + [st])[|s|].path == p; }
  }

  lemma OneMoreStat(present: seq<FileStats>, more: seq<FileStats>, r: seq<FileStats>, st: FileStats)
    requires AddsStats(present, more, r)
    ensures AddsStats(present, more + [st], if HasStats(r, st.path) then r else r + [st])
  {
    var next := if HasStats(r, st.path) then r else r + [st];
    forall i | |present| <= i < |next|
      ensures next[i] in more + [st] && !HasStats(next[..i], next[i].path)
    {
      assert next[..i] == r[..i];
      if i == |r| { assert r[..i] == r; }
    }
    forall x | x in more + [st]
      ensures HasStats(next, x.path)
    {
      StatsMore(r, st, x.path);
    }
  }

  lemma LastStat(present: seq<FileStats>, more: seq<FileStats>)
    requires |more| > 0
    ensures var r, st := AddStats(present, more[..|more| - 1]), more[|more| - 1];
            AddStats(present, more) == if HasStats(r, st.path) then r else r + [st]
  {
    var r, st := AddStats(present, more[..|more| - 1]), more[|more| - 1];
    if HasStats(r, st.path) {
      var i :| 0 <= i < |r| && r[i].path == st.path;
      assert r[i] in r;
    }
  }

  lemma {:induction false} StatsAdded(present: seq<FileStats>, more: seq<FileStats>)
    ensures AddsStats(present, more, AddStats(present, more))
  {
    if |more| != 0 {
      var m := |more| - 1;
      StatsAdded(present, more[..m]);
      LastStat(present, more);
      assert more[..m] + [more[m]] == more;
      OneMoreStat(present, more[..m], AddStats(present, more[..m]), more[m]);
    }
  }

  /** Statistics of a file that the compaction wrote. */
  predicate OfParquet(k: CompactionCommit, st: FileStats) { Contains(st.path, k.parquetFileName) }

  /** A replacement needs speedboat files and a listed file of the compaction's name; it keeps the identity and the
      schema, and coverage exactly of what is still current. */
  lemma ReplacementKeeps(c: Checkpoint, k: CompactionCommit, m: IcebergMetadata, ext: string, p: string)
    ensures ApplyReplacement(c, k, m).Some? <==>
              c.speedboat.Some? && exists i :: FirstNamed(m.files, i, k.parquetFileName)
    ensures ApplyReplacement(c, k, m).Some? ==>
              var d := ApplyReplacement(c, k, m).value;
              && d.tableName == c.tableName && d.id == c.id && d.originalId == c.originalId && d.schema == c.schema
              && (p in CoverageOf(d, ext) <==>
                    p in CoverageOf(c, ext) && (p in CurrentPaths(d) || p == CheckpointKey(c.id)))
              && (p in CoverageOf(d, ext) ==> CoverageOf(d, ext)[p] == CoverageOf(c, ext)[p])
  {
    SelectFileMeaning(m.files, k.parquetFileName);
  }

  /** What the first part keeps if it says anything, and the second part supplies otherwise. */
  predicate Supplied(r: seq<string>, first: seq<string>, second: seq<string>) {
    r == if first == [] then second else first
  }

  lemma SelectedIs(fs: seq<FileDesc>, name: string, i: nat)
    requires FirstNamed(fs, i, name)
    ensures SelectFile(fs, name) == Some([fs[i]])
  {
    SelectFileMeaning(fs, name);
    var j :| 0 <= j < |fs| && FirstNamed(fs, j, name) && SelectFile(fs, name).value == [fs[j]];
    assert i == j;
  }

  function ParquetStats(k: CompactionCommit, m: IcebergMetadata): seq<FileStats> {
    Filter(m.fileStats, st => OfParquet(k, st))
  }

  lemma ParquetStatsAre(k: CompactionCommit, m: IcebergMetadata)
    ensures ParquetStats(k, m) == Filter(m.fileStats, (x: FileStats) => Contains(x.path, k.parquetFileName))
  {
    FilterExt(m.fileStats, st => OfParquet(k, st), (x: FileStats) => Contains(x.path, k.parquetFileName));
  }

  lemma MergeOne(fs: seq<FileDesc>, d: FileDesc)
    ensures MergeFiles(fs, [d]) == fs + if d.path in PathSet(fs) then [] else [d]
  {
    assert [d][..0] == [];
  }

  /** Without an Iceberg part, the one of the commit is taken, cut down to the new file and its statistics. */
  lemma ReplacementStarts(c: Checkpoint, k: CompactionCommit, m: IcebergMetadata, i: nat)
    requires c.speedboat.Some? && c.iceberg.None? && FirstNamed(m.files, i, k.parquetFileName)
    ensures ApplyReplacement(c, k, m).Some?
    ensures ApplyReplacement(c, k, m).value.iceberg
            == Some(m.(snapshotId := None, files := [m.files[i]], columnNames := [], columnStats := [],
                       fileStats := ParquetStats(k, m)))
  {
    SelectedIs(m.files, k.parquetFileName, i);
    ParquetStatsAre(k, m);
  }

  /** An Iceberg part stays what it is, but for what it lacks: the new file, the statistics of the compaction's files,
      and any of three parts that are empty. */
  lemma ReplacementExtends(c: Checkpoint, k: CompactionCommit, m: IcebergMetadata, i: nat)
    requires c.speedboat.Some? && c.iceberg.Some? && FirstNamed(m.files, i, k.parquetFileName)
    ensures ApplyReplacement(c, k, m).Some? && ApplyReplacement(c, k, m).value.iceberg.Some?
    ensures var r, o := ApplyReplacement(c, k, m).value.iceberg.value, c.iceberg.value;
            && r == o.(files := o.files + (if m.files[i].path in PathSet(o.files) then [] else [m.files[i]]),
                       partitionSpec := r.partitionSpec, sortOrder := r.sortOrder,
                       accessArtifacts := r.accessArtifacts, fileStats := r.fileStats)
            && Supplied(r.partitionSpec, o.partitionSpec, m.partitionSpec)
            && Supplied(r.sortOrder, o.sortOrder, m.sortOrder)
            && Supplied(r.accessArtifacts, o.accessArtifacts, m.accessArtifacts)
            && AddsStats(o.fileStats, ParquetStats(k, m), r.fileStats)
  {
    SelectedIs(m.files, k.parquetFileName, i);
    ParquetStatsAre(k, m);
    MergeOne(c.iceberg.value.files, m.files[i]);
    StatsAdded(c.iceberg.value.fileStats, ParquetStats(k, m));
  }
}
