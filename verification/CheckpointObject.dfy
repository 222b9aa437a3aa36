/** `TableMetadataCheckpoint` as the mutable object of `control_plane/src/data_contract.rs`: every
    in-place operation computes the corresponding function on checkpoint values.  A method that
    returns `false` stands for an abort of the source; the object is then abandoned. */
module CheckpointObject {
  import opened Prelude
  import opened Schemas
  import opened FileSets
  import opened Checkpoints

  lemma {:induction false} TableInfosStop(c: Checkpoint, ts: seq<TableInfo>, k: nat)
    requires k <= |ts| && ApplyTableInfos(c, ts[..k]).None?
    ensures ApplyTableInfos(c, ts).None?
    decreases |ts|
  {
    if k == |ts| {
      assert ts[..k] == ts;
    } else {
      assert ts[..|ts| - 1][..k] == ts[..k];
      TableInfosStop(c, ts[..|ts| - 1], k);
    }
  }

  lemma {:induction false} SpeedboatsStopped(c: Checkpoint, cs: seq<SpeedboatCommit>, lookup: Compactions, k: nat)
    requires k <= |cs| && ApplySpeedboats(c, cs[..k], lookup).None?
    ensures ApplySpeedboats(c, cs, lookup).None?
    decreases |cs|
  {
    if k == |cs| {
      assert cs[..k] == cs;
    } else {
      assert cs[..|cs| - 1][..k] == cs[..k];
      SpeedboatsStopped(c, cs[..|cs| - 1], lookup, k);
    }
  }

  /** The first `k` commits make `d` of the checkpoint. */
  predicate SpeedboatsDone(c: Checkpoint, cs: seq<SpeedboatCommit>, lookup: Compactions, k: nat, d: Checkpoint) {
    k <= |cs| && ApplySpeedboats(c, cs[..k], lookup) == Some(d)
  }

  lemma SpeedboatsStart(c: Checkpoint, cs: seq<SpeedboatCommit>, lookup: Compactions)
    ensures SpeedboatsDone(c, cs, lookup, 0, c)
  {
    assert cs[..0] == [];
  }

  lemma SpeedboatsNext(c: Checkpoint, cs: seq<SpeedboatCommit>, lookup: Compactions, k: nat, d: Checkpoint,
                       e: Checkpoint)
    requires SpeedboatsDone(c, cs, lookup, k, d) && k < |cs| && ApplySpeedboat(d, cs[k], lookup) == Some(e)
    ensures SpeedboatsDone(c, cs, lookup, k + 1, e)
  {
    assert cs[..k + 1][..k] == cs[..k];
  }

  lemma SpeedboatsStop(c: Checkpoint, cs: seq<SpeedboatCommit>, lookup: Compactions, k: nat, d: Checkpoint)
    requires SpeedboatsDone(c, cs, lookup, k, d) && k < |cs| && ApplySpeedboat(d, cs[k], lookup).None?
    ensures ApplySpeedboats(c, cs, lookup).None?
  {
    assert cs[..k + 1][..k] == cs[..k];
    SpeedboatsStopped(c, cs, lookup, k + 1);
  }

  lemma SpeedboatsEnd(c: Checkpoint, cs: seq<SpeedboatCommit>, lookup: Compactions, d: Checkpoint)
    requires SpeedboatsDone(c, cs, lookup, |cs|, d)
    ensures ApplySpeedboats(c, cs, lookup) == Some(d)
  {
    assert cs[..|cs|] == cs;
  }

  lemma {:induction false} IcebergsStopped(c: Checkpoint, cs: seq<IcebergCommit>, lookup: Compactions, k: nat)
    requires k <= |cs| && ApplyIcebergs(c, cs[..k], lookup).None?
    ensures ApplyIcebergs(c, cs, lookup).None?
    decreases |cs|
  {
    if k == |cs| {
      assert cs[..k] == cs;
    } else {
      assert cs[..|cs| - 1][..k] == cs[..k];
      IcebergsStopped(c, cs[..|cs| - 1], lookup, k);
    }
  }

  /** The first `k` commits make `d` of the checkpoint. */
  predicate IcebergsDone(c: Checkpoint, cs: seq<IcebergCommit>, lookup: Compactions, k: nat, d: Checkpoint) {
    k <= |cs| && ApplyIcebergs(c, cs[..k], lookup) == Some(d)
  }

  lemma IcebergsStart(c: Checkpoint, cs: seq<IcebergCommit>, lookup: Compactions)
    ensures IcebergsDone(c, cs, lookup, 0, c)
  {
    assert cs[..0] == [];
  }

  lemma IcebergsNext(c: Checkpoint, cs: seq<IcebergCommit>, lookup: Compactions, k: nat, d: Checkpoint,
                     e: Checkpoint)
    requires IcebergsDone(c, cs, lookup, k, d) && k < |cs| && ApplyIceberg(d, cs[k], lookup) == Some(e)
    ensures IcebergsDone(c, cs, lookup, k + 1, e)
  {
    assert cs[..k + 1][..k] == cs[..k];
  }

  lemma IcebergsStop(c: Checkpoint, cs: seq<IcebergCommit>, lookup: Compactions, k: nat, d: Checkpoint)
    requires IcebergsDone(c, cs, lookup, k, d) && k < |cs| && ApplyIceberg(d, cs[k], lookup).None?
    ensures ApplyIcebergs(c, cs, lookup).None?
  {
    assert cs[..k + 1][..k] == cs[..k];
    IcebergsStopped(c, cs, lookup, k + 1);
  }

  lemma IcebergsEnd(c: Checkpoint, cs: seq<IcebergCommit>, lookup: Compactions, d: Checkpoint)
    requires IcebergsDone(c, cs, lookup, |cs|, d)
    ensures ApplyIcebergs(c, cs, lookup) == Some(d)
  {
    assert cs[..|cs|] == cs;
  }

  /** The entries of a commit for the given paths that are not there yet. */
  function Part(e: ExtensionCommit, existing: Coverage, paths: set<string>): Coverage {
    map p | p in e.files && p in paths && p !in existing :: e.files[p]
  }

  lemma PartStep(e: ExtensionCommit, existing: Coverage, paths: set<string>, p: string)
    ensures p in e.files && p !in existing ==>
              && (existing + Part(e, existing, paths))[p := e.files[p]] == existing + Part(e, existing, paths + {p})
              && Part(e, existing, paths + {p}) != map[]
    ensures !(p in e.files && p !in existing) ==> Part(e, existing, paths + {p}) == Part(e, existing, paths)
  {
    if p in e.files && p !in existing {
      assert p in Part(e, existing, paths + {p});
    }
  }

  class TableMetadataCheckpoint {
    var tableName: string
    var originalId: Option<string>
    var id: string
    var iceberg: Option<IcebergMetadata>
    var speedboat: FileSetPayload?
    var deletes: Option<seq<string>>
    var extensions: map<string, Coverage>
    var schema: Schema

    ghost predicate Valid()
      reads this, speedboat
    {
      speedboat != null ==> speedboat.Valid()
    }

    ghost function Value(): Checkpoint
      requires Valid()
      reads this, speedboat
    {
      Checkpoint(tableName, originalId, id, iceberg,
                 if speedboat == null then None else Some(speedboat.AsFileTuples()), deletes, extensions, schema)
    }

    /** A deep copy. */
    constructor Clone(other: TableMetadataCheckpoint)
      requires other.Valid()
      ensures Valid() && Value() == other.Value() && (speedboat != null ==> fresh(speedboat))
    {
      tableName, originalId, id, iceberg := other.tableName, other.originalId, other.id, other.iceberg;
      deletes, extensions, schema := other.deletes, other.extensions, other.schema;
      if other.speedboat == null {
        speedboat := null;
      } else {
        speedboat := new FileSetPayload.Clone(other.speedboat);
      }
    }

    /** `current_file_paths`. */
    method CurrentFilePaths() returns (paths: set<string>)
      requires Valid()
      ensures paths == CurrentPaths(Value())
    {
      paths := if iceberg.Some? then PathSet(iceberg.value.files) else {};
      if speedboat != null {
        paths := paths + PathSet(speedboat.AsFileTuples());
      }
    }

    /** `retain_current_extension_metadata`. */
    method RetainCurrentExtensionMetadata()
      requires Valid()
      modifies this`extensions
      ensures Valid() && Value() == RetainCurrent(old(Value()))
    {
      var paths := CurrentFilePaths();
      extensions := map e | e in extensions ::
        map p | p in extensions[e] && (p in paths || p == CheckpointKey(id)) :: extensions[e][p];
    }

    /** One table info of a speedboat commit. */
    method ApplyInfo(t: TableInfo) returns (ok: bool)
      requires Valid() && speedboat != null && deletes.Some?
      modifies this, speedboat
      ensures Valid() && speedboat == old(speedboat)
      ensures ok <==> ApplyTableInfo(old(Value()), t).Some?
      ensures ok ==> Value() == ApplyTableInfo(old(Value()), t).value && deletes.Some?
    {
      if t.commitType == "delete" {
        deletes := Some(deletes.value + t.files);
        return true;
      }
      if !IsData(t) { return false; }
      var files := Payload(t);
      if files.None? { return false; }
      var merged := MergeFrom(schema, t.schema.value);
      if merged.None? { return false; }
      var payload := new FileSetPayload.FromFiles(files.value);
      speedboat.MergeInplace(payload);
      schema := merged.value;
      ok := true;
    }

    /** `apply_compactions`. */
    method DropCompacted(ids: seq<string>, lookup: Compactions) returns (ok: bool)
      requires Valid()
      modifies this, speedboat
      ensures Valid() && speedboat == old(speedboat)
      ensures ok <==> ApplyCompactions(old(Value()), ids, lookup).Some?
      ensures ok ==> Value() == ApplyCompactions(old(Value()), ids, lookup).value
    {
      var removed := Removed(ids, lookup);
      if removed.None? { return false; }
      if speedboat != null { speedboat.Remove(removed.value.0); }
      if deletes.Some? { deletes := Some(Filter(deletes.value, (x: string) => x !in removed.value.1)); }
      extensions := map e | e in extensions :: map p | p in extensions[e] && p !in removed.value.0 :: extensions[e][p];
      ok := true;
    }

    /** The loop of `apply_speedboat`. */
    method ApplyInfos(ts: seq<TableInfo>) returns (ok: bool)
      requires Valid() && speedboat != null && deletes.Some?
      modifies this, speedboat
      ensures Valid() && speedboat == old(speedboat)
      ensures ok <==> ApplyTableInfos(old(Value()), ts).Some?
      ensures ok ==> Value() == ApplyTableInfos(old(Value()), ts).value
    {
      ghost var start := Value();
      var k := 0;
      while k < |ts|
        invariant k <= |ts| && Valid() && speedboat == old(speedboat) && deletes.Some?
        invariant ApplyTableInfos(start, ts[..k]) == Some(Value())
      {
        assert ts[..k + 1][..k] == ts[..k];
        ok := ApplyInfo(ts[k]);
        if !ok {
          TableInfosStop(start, ts, k + 1);
          return;
        }
        k := k + 1;
      }
      assert ts[..k] == ts;
      ok := true;
    }

    /** `apply_speedboat`. */
    method ApplySpeedboatCommit(s: SpeedboatCommit, lookup: Compactions) returns (ok: bool)
      requires Valid()
      modifies this, speedboat
      ensures Valid() && (speedboat == old(speedboat) || fresh(speedboat))
      ensures ok <==> ApplySpeedboat(old(Value()), s, lookup).Some?
      ensures ok ==> Value() == ApplySpeedboat(old(Value()), s, lookup).value
    {
      ghost var c := Value();
      if speedboat == null { speedboat := new FileSetPayload(); }
      if deletes.None? { deletes := Some([]); }
      assert Value() == c.(speedboat := Some(SpeedboatFiles(c)), deletes := Some(DeleteFiles(c)));
      ok := ApplyInfos(s.typeFiles);
      if ok && s.compaction.Some? {
        ok := DropCompacted([s.compaction.value], lookup);
      }
    }

    /** The assignments at the start of `apply_iceberg`. */
    method ReplaceIceberg(i: IcebergCommit) returns (ok: bool)
      requires Valid()
      modifies this
      ensures Valid() && speedboat == old(speedboat)
      ensures ok <==> MergeFrom(old(schema), i.metadata.tableSchema).Some?
      ensures ok ==> Value() == old(Value()).(
                       iceberg := Some(i.metadata),
                       deletes := if i.deletesTableInfo.Some?
                                  then Some(DeleteFiles(old(Value())) + i.deletesTableInfo.value.files)
                                  else old(deletes),
                       schema := MergeFrom(old(schema), i.metadata.tableSchema).value)
    {
      iceberg := Some(i.metadata);
      if i.deletesTableInfo.Some? {
        if deletes.None? { deletes := Some([]); }
        deletes := Some(deletes.value + i.deletesTableInfo.value.files);
      }
      var merged := MergeFrom(schema, i.metadata.tableSchema);
      if merged.None? { return false; }
      schema := merged.value;
      ok := true;
    }

    /** `apply_iceberg`. */
    method ApplyIcebergCommit(i: IcebergCommit, lookup: Compactions) returns (ok: bool)
      requires Valid()
      modifies this, speedboat
      ensures Valid() && speedboat == old(speedboat)
      ensures ok <==> ApplyIceberg(old(Value()), i, lookup).Some?
      ensures ok ==> Value() == ApplyIceberg(old(Value()), i, lookup).value
    {
      ok := ReplaceIceberg(i);
      if !ok { return; }
      ok := DropCompacted(i.compactions, lookup);
      if ok { RetainCurrentExtensionMetadata(); }
    }

    /** `add_coverage`. */
    method AddExtensionCoverage(e: ExtensionCommit) returns (changed: bool)
      requires Valid()
      modifies this`extensions
      ensures Valid() && Value() == AddCoverage(old(Value()), e).0
      ensures changed == AddCoverage(old(Value()), e).1
    {
      ghost var c := Value();
      var existing := if e.extension in extensions then extensions[e.extension] else map[];
      var cover;
      cover, changed := CoverCheckpoint(e, existing, if iceberg.Some? then iceberg.value.files else [],
                                        if speedboat == null then [] else speedboat.AsFileTuples(), CheckpointKey(id));
      extensions := extensions[e.extension := cover];
      CoverageMeans(c, e);
    }

    /** The first loop of `clone_and_apply`. */
    method ApplyAllSpeedboats(sbs: seq<SpeedboatCommit>, lookup: Compactions) returns (ok: bool)
      requires Valid()
      modifies this, speedboat
      ensures Valid() && (speedboat == old(speedboat) || fresh(speedboat))
      ensures ok <==> ApplySpeedboats(old(Value()), sbs, lookup).Some?
      ensures ok ==> Value() == ApplySpeedboats(old(Value()), sbs, lookup).value
    {
      ghost var start := Value();
      var k := 0;
      SpeedboatsStart(start, sbs, lookup);
      while k < |sbs|
        invariant Valid() && (speedboat == old(speedboat) || fresh(speedboat))
        invariant SpeedboatsDone(start, sbs, lookup, k, Value())
      {
        ghost var before := Value();
        ok := ApplySpeedboatCommit(sbs[k], lookup);
        if !ok {
          SpeedboatsStop(start, sbs, lookup, k, before);
          return;
        }
        SpeedboatsNext(start, sbs, lookup, k, before, Value());
        k := k + 1;
      }
      SpeedboatsEnd(start, sbs, lookup, Value());
      ok := true;
    }

    /** The second loop of `clone_and_apply`. */
    method ApplyAllIcebergs(ics: seq<IcebergCommit>, lookup: Compactions) returns (ok: bool)
      requires Valid()
      modifies this, speedboat
      ensures Valid() && speedboat == old(speedboat)
      ensures ok <==> ApplyIcebergs(old(Value()), ics, lookup).Some?
      ensures ok ==> Value() == ApplyIcebergs(old(Value()), ics, lookup).value
    {
      ghost var start := Value();
      var k := 0;
      IcebergsStart(start, ics, lookup);
      while k < |ics|
        invariant Valid() && speedboat == old(speedboat)
        invariant IcebergsDone(start, ics, lookup, k, Value())
      {
        ghost var before := Value();
        ok := ApplyIcebergCommit(ics[k], lookup);
        if !ok {
          IcebergsStop(start, ics, lookup, k, before);
          return;
        }
        IcebergsNext(start, ics, lookup, k, before, Value());
        k := k + 1;
      }
      IcebergsEnd(start, ics, lookup, Value());
      ok := true;
    }

    /** The last loop of `clone_and_apply`. */
    method CoverAll(exts: seq<ExtensionCommit>, before: bool) returns (changed: bool)
      requires Valid()
      modifies this`extensions
      ensures Valid() && Value() == AddCoverages(old(Value()), exts).0
      ensures changed == (before || AddCoverages(old(Value()), exts).1)
    {
      changed := before;
      var k := 0;
      while k < |exts|
        invariant k <= |exts| && Valid()
        invariant Value() == AddCoverages(old(Value()), exts[..k]).0
        invariant changed == (before || AddCoverages(old(Value()), exts[..k]).1)
      {
        assert exts[..k + 1][..k] == exts[..k];
        var c := AddExtensionCoverage(exts[k]);
        changed := changed || c;
        k := k + 1;
      }
      assert exts[..k] == exts;
    }

    /** The clone that `clone_and_apply` starts from. */
    method CloneFor(newId: string) returns (r: TableMetadataCheckpoint)
      requires Valid()
      ensures fresh(r) && (r.speedboat != null ==> fresh(r.speedboat))
      ensures r.Valid() && r.Value() == RetainCurrent(Value().(id := newId))
    {
      r := new TableMetadataCheckpoint.Clone(this);
      r.id := newId;
      assert r.Value() == Value().(id := newId);
      r.RetainCurrentExtensionMetadata();
    }

    /** `clone_and_apply`; `newId` is the generated id. */
    method CloneWith(newId: string, sbs: seq<SpeedboatCommit>, ics: seq<IcebergCommit>, exts: seq<ExtensionCommit>,
                     lookup: Compactions) returns (r: TableMetadataCheckpoint, ok: bool, changed: bool)
      requires Valid()
      ensures fresh(r) && ok == CloneAndApply(Value(), newId, sbs, ics, exts, lookup).Some?
      ensures ok ==> r.Valid() && r.Value() == CloneAndApply(Value(), newId, sbs, ics, exts, lookup).value.0
      ensures ok ==> changed == CloneAndApply(Value(), newId, sbs, ics, exts, lookup).value.1
    {
      changed := false;
      r := CloneFor(newId);
      ok := r.ApplyAllSpeedboats(sbs, lookup);
      if !ok { return; }
      ok := r.ApplyAllIcebergs(ics, lookup);
      if !ok { return; }
      changed := r.CoverAll(exts, |sbs| > 0 || |ics| > 0);
    }
  }

  lemma CoverageMeans(c: Checkpoint, e: ExtensionCommit)
    ensures Part(e, CoverageOf(c, e.extension),
                 PathSet(IcebergFiles(c)) + PathSet(SpeedboatFiles(c)) + {CheckpointKey(c.id)})
            == NewCoverage(c, e)
  {
  }

  /** The two loops of `add_coverage` and its entry for the checkpoint itself. */
  method CoverCheckpoint(e: ExtensionCommit, existing: Coverage, icebergFiles: seq<FileDesc>,
                         speedboatFiles: seq<FileDesc>, key: string)
    returns (cover: Coverage, changed: bool)
    ensures var part := Part(e, existing, PathSet(icebergFiles) + PathSet(speedboatFiles) + {key});
            cover == existing + part && (changed <==> part != map[])
  {
    assert existing + Part(e, existing, {}) == existing;
    cover, changed := CoverPaths(e, existing, existing, icebergFiles, {}, false);
    assert {} + PathSet(icebergFiles) == PathSet(icebergFiles);
    cover, changed := CoverPaths(e, existing, cover, speedboatFiles, PathSet(icebergFiles), changed);
    PartStep(e, existing, PathSet(icebergFiles) + PathSet(speedboatFiles), key);
    if key in e.files && key !in existing {
      cover := cover[key := e.files[key]];
      changed := true;
    }
  }

  /** Covers the listed paths that the commit knows and that were not covered before. */
  method CoverPaths(e: ExtensionCommit, existing: Coverage, before: Coverage, fs: seq<FileDesc>,
                    ghost done: set<string>, dirty: bool)
    returns (cover: Coverage, changed: bool)
    requires before == existing + Part(e, existing, done)
    requires dirty <==> Part(e, existing, done) != map[]
    ensures cover == existing + Part(e, existing, done + PathSet(fs))
    ensures changed <==> Part(e, existing, done + PathSet(fs)) != map[]
  {
    cover, changed := before, dirty;
    var k := 0;
    assert done + PathSet(fs[..0]) == done;
    while k < |fs|
      invariant k <= |fs|
      invariant cover == existing + Part(e, existing, done + PathSet(fs[..k]))
      invariant changed <==> Part(e, existing, done + PathSet(fs[..k])) != map[]
    {
      var p := fs[k].path;
      PartStep(e, existing, done + PathSet(fs[..k]), p);
      assert done + PathSet(fs[..k + 1]) == done + PathSet(fs[..k]) + {p} by {
        assert fs[..k + 1] == fs[..k] + [fs[k]];
      }
      if p in e.files && p !in existing {
        cover := cover[p := e.files[p]];
        changed := true;
      }
      k := k + 1;
    }
    assert fs[..k] == fs;
  }
}
