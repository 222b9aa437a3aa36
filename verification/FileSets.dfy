/** The files of a table (`FileSetPayload`, `control_plane/src/data_contract.rs`): as a list of
    descriptors, and as the parallel arrays that the source keeps in step. */
module FileSets {
  import opened Prelude
  import opened Schemas

  datatype FileDesc = FileDesc(path: string, schema: Schema, size: nat)

  function PathSet(fs: seq<FileDesc>): set<string> {
    set d | d in fs :: d.path
  }

  predicate UniquePaths(fs: seq<FileDesc>) {
    forall i, j :: 0 <= i < j < |fs| ==> fs[i].path != fs[j].path
  }

  /** `add`: a path that is already listed is left alone. */
  function AddFile(fs: seq<FileDesc>, d: FileDesc): seq<FileDesc> {
    if d.path in PathSet(fs) then fs else fs + [d]
  }

  /** `merge_inplace`. */
  function MergeFiles(fs: seq<FileDesc>, ds: seq<FileDesc>): seq<FileDesc> {
    if |ds| == 0 then fs else AddFile(MergeFiles(fs, ds[..|ds| - 1]), ds[|ds| - 1])
  }

  predicate Listed(ps: seq<string>, d: FileDesc) { d.path in ps }

  /** `remove`. */
  function RemoveFiles(fs: seq<FileDesc>, ps: seq<string>): seq<FileDesc> {
    Filter(fs, (d: FileDesc) => !Listed(ps, d))
  }

  lemma AddFilePaths(fs: seq<FileDesc>, d: FileDesc)
    ensures PathSet(AddFile(fs, d)) == PathSet(fs) + {d.path}
    ensures UniquePaths(fs) ==> UniquePaths(AddFile(fs, d))
  {
    if d.path !in PathSet(fs) {
      assert forall i :: 0 <= i < |fs| ==> fs[i].path in PathSet(fs);
      assert forall x :: x in fs + [d] <==> x in fs || x == d;
    }
  }

  lemma {:induction false} MergeFilesPaths(fs: seq<FileDesc>, ds: seq<FileDesc>)
    ensures PathSet(MergeFiles(fs, ds)) == PathSet(fs) + PathSet(ds)
    ensures UniquePaths(fs) ==> UniquePaths(MergeFiles(fs, ds))
  {
    if |ds| != 0 {
      var n := |ds| - 1;
      MergeFilesPaths(fs, ds[..n]);
      AddFilePaths(MergeFiles(fs, ds[..n]), ds[n]);
      assert PathSet(ds) == PathSet(ds[..n]) + {ds[n].path} by {
        assert forall d :: d in ds <==> d in ds[..n] || d == ds[n];
      }
    }
  }

  /** Merging adds exactly the missing paths, at the end, and never touches what is there. */
  lemma {:induction false} MergeFilesMeaning(fs: seq<FileDesc>, ds: seq<FileDesc>)
    ensures PathSet(MergeFiles(fs, ds)) == PathSet(fs) + PathSet(ds)
    ensures IsPrefix(fs, MergeFiles(fs, ds))
    ensures forall i :: |fs| <= i < |MergeFiles(fs, ds)| ==>
              MergeFiles(fs, ds)[i] in ds && MergeFiles(fs, ds)[i].path !in PathSet(fs)
    ensures UniquePaths(fs) ==> UniquePaths(MergeFiles(fs, ds))
  {
    MergeFilesPaths(fs, ds);
    if |ds| != 0 {
      var n := |ds| - 1;
      MergeFilesMeaning(fs, ds[..n]);
      MergeFilesPaths(fs, ds[..n]);
    }
  }

  /** Merging a list into an empty one copies it exactly when it lists no path twice. */
  lemma {:induction false} MergeIntoEmpty(fs: seq<FileDesc>)
    ensures MergeFiles([], fs) == fs <==> UniquePaths(fs)
  {
    MergeFilesPaths([], fs);
    if UniquePaths(fs) && |fs| != 0 {
      var n := |fs| - 1;
      MergeIntoEmpty(fs[..n]);
      assert fs == fs[..n] + [fs[n]] && fs[n].path !in PathSet(fs[..n]);
    }
  }

  lemma RemoveFilesMeaning(fs: seq<FileDesc>, ps: seq<string>)
    ensures forall d :: d in RemoveFiles(fs, ps) <==> d in fs && d.path !in ps
    ensures PathSet(RemoveFiles(fs, ps)) == PathSet(fs) - (set p | p in ps)
    ensures UniquePaths(fs) ==> UniquePaths(RemoveFiles(fs, ps))
  {
    var r := RemoveFiles(fs, ps);
    forall p
      ensures p in PathSet(r) <==> p in PathSet(fs) && p !in ps
    {
      if p in PathSet(fs) && p !in ps {
        var d :| d in fs && d.path == p;
        assert d in r;
      }
    }
    if UniquePaths(fs) { FilterUniquePaths(fs, (d: FileDesc) => !Listed(ps, d)); }
  }

  lemma {:induction false} FilterUniquePaths(fs: seq<FileDesc>, p: FileDesc -> bool)
    requires UniquePaths(fs)
    ensures UniquePaths(Filter(fs, p))
  {
    if |fs| != 0 {
      var n := |fs| - 1;
      FilterUniquePaths(fs[..n], p);
      var r := Filter(fs[..n], p);
      forall i | 0 <= i < |r|
        ensures r[i].path != fs[n].path
      {
        assert r[i] in fs[..n];
      }
    }
  }

  /** Adding files and then removing exactly those brings back the original list. */
  lemma RemoveUndoesMerge(fs: seq<FileDesc>, ds: seq<FileDesc>, ps: seq<string>)
    requires forall d :: d in ds ==> d.path in ps
    requires forall d :: d in fs ==> d.path !in ps
    ensures RemoveFiles(MergeFiles(fs, ds), ps) == fs
  {
    MergeFilesMeaning(fs, ds);
    var m := MergeFiles(fs, ds);
    assert m == fs + m[|fs|..];
    DropTail(fs, m[|fs|..], (d: FileDesc) => !Listed(ps, d));
  }

  lemma DropTail(fs: seq<FileDesc>, more: seq<FileDesc>, keep: FileDesc -> bool)
    requires forall d :: d in fs ==> keep(d)
    requires forall i :: 0 <= i < |more| ==> !keep(more[i])
    ensures Filter(fs + more, keep) == fs
  {
    FilterConcat(fs, more, keep);
    FilterAll(fs, keep);
    FilterNone(more, keep);
  }

  lemma {:induction false} FilterNone<T>(s: seq<T>, p: T -> bool)
    requires forall i :: 0 <= i < |s| ==> !p(s[i])
    ensures Filter(s, p) == []
  {
    if |s| != 0 { FilterNone(s[..|s| - 1], p); }
  }

  /** How far an in-place removal has come: `now[..i]` is settled, `now[i..]` is still to be seen. */
  ghost predicate Removing(before: seq<FileDesc>, done: nat, now: seq<FileDesc>, i: nat, keep: FileDesc -> bool) {
    && done <= |before| && i <= |now|
    && now[..i] == Filter(before[..done], keep)
    && now[i..] == before[done..]
  }

  lemma RemovingStep(before: seq<FileDesc>, done: nat, now: seq<FileDesc>, i: nat, keep: FileDesc -> bool)
    requires Removing(before, done, now, i, keep) && i < |now|
    ensures done < |before| && now[i] == before[done]
    ensures keep(now[i]) ==> Removing(before, done + 1, now, i + 1, keep)
    ensures !keep(now[i]) ==> Removing(before, done + 1, now[..i] + now[i + 1..], i, keep)
  {
    assert now[i] == now[i..][0] == before[done..][0];
    assert before[..done + 1] == before[..done] + [before[done]];
    FilterStep(before[..done], before[done], keep);
    assert now[..i + 1] == now[..i] + [now[i]];
    assert now[i + 1..] == now[i..][1..] == before[done..][1..] == before[done + 1..];
    assert (now[..i] + now[i + 1..])[..i] == now[..i];
    assert (now[..i] + now[i + 1..])[i..] == now[i + 1..];
  }

  lemma RemovingDone(before: seq<FileDesc>, done: nat, now: seq<FileDesc>, i: nat, keep: FileDesc -> bool)
    requires Removing(before, done, now, i, keep) && i == |now|
    ensures now == Filter(before, keep)
  {
    assert now[i..] == [];
    assert before[..done] == before && now[..i] == now;
  }

  // ------------------------------------------------------- parallel arrays

  class FileSetPayload {
    var filePaths: seq<string>
    var schemas: seq<Schema>
    var fileSchemas: seq<nat>
    var sizes: seq<nat>

    /** The arrays agree in length and every schema index points at a schema. */
    ghost predicate Valid()
      reads this
    {
      && |filePaths| == |fileSchemas| == |sizes|
      && forall i :: 0 <= i < |fileSchemas| ==> fileSchemas[i] < |schemas|
    }

    /** `as_file_tuples`. */
    function AsFileTuples(): (r: seq<FileDesc>)
      requires Valid()
      reads this
      ensures forall p :: p in filePaths <==> p in PathSet(r)
    {
      var r :=
        seq(|filePaths|, i requires Valid() && 0 <= i < |filePaths| reads this =>
          FileDesc(filePaths[i], schemas[fileSchemas[i]], sizes[i]));
      assert forall i :: 0 <= i < |r| ==> r[i] in r && r[i].path == filePaths[i];
      r
    }

    constructor ()
      ensures Valid() && AsFileTuples() == []
    {
      filePaths, schemas, fileSchemas, sizes := [], [], [], [];
    }

    /** A clone of another payload. */
    constructor Clone(other: FileSetPayload)
      requires other.Valid()
      ensures Valid() && AsFileTuples() == other.AsFileTuples()
    {
      filePaths, schemas, fileSchemas, sizes := other.filePaths, other.schemas, other.fileSchemas, other.sizes;
    }

    /** A payload holding a list of descriptors, one schema per file. */
    constructor FromFiles(fs: seq<FileDesc>)
      ensures Valid() && AsFileTuples() == fs
    {
      filePaths := seq(|fs|, i requires 0 <= i < |fs| => fs[i].path);
      schemas := seq(|fs|, i requires 0 <= i < |fs| => fs[i].schema);
      fileSchemas := seq(|fs|, i => i);
      sizes := seq(|fs|, i requires 0 <= i < |fs| => fs[i].size);
    }

    method Clear()
      modifies this
      ensures Valid() && AsFileTuples() == []
    {
      filePaths, schemas, fileSchemas, sizes := [], [], [], [];
    }

    /** Drops position `i` from the three arrays. */
    method RemoveAt(i: nat)
      requires Valid() && i < |filePaths|
      modifies this
      ensures Valid() && schemas == old(schemas) && |filePaths| == old(|filePaths|) - 1
      ensures AsFileTuples() == old(AsFileTuples())[..i] + old(AsFileTuples())[i + 1..]
    {
      filePaths := filePaths[..i] + filePaths[i + 1..];
      sizes := sizes[..i] + sizes[i + 1..];
      fileSchemas := fileSchemas[..i] + fileSchemas[i + 1..];
    }

    method Remove(toRemove: seq<string>)
      requires Valid()
      modifies this
      ensures Valid() && AsFileTuples() == RemoveFiles(old(AsFileTuples()), toRemove)
      ensures schemas == old(schemas)
    {
      ghost var before := AsFileTuples();
      ghost var keep := (d: FileDesc) => !Listed(toRemove, d);
      ghost var done := 0;
      var i := 0;
      while i < |filePaths|
        invariant Valid() && i <= |filePaths| && schemas == old(schemas)
        invariant Removing(before, done, AsFileTuples(), i, keep)
        decreases |filePaths| - i
      {
        ghost var now := AsFileTuples();
        RemovingStep(before, done, now, i, keep);
        if filePaths[i] in toRemove {
          RemoveAt(i);
        } else {
          i := i + 1;
        }
        done := done + 1;
      }
      RemovingDone(before, done, AsFileTuples(), i, keep);
    }

    method Add(d: FileDesc)
      requires Valid()
      modifies this
      ensures Valid() && AsFileTuples() == AddFile(old(AsFileTuples()), d)
    {
      ghost var before := AsFileTuples();
      if d.path in filePaths { return; }
      filePaths := filePaths + [d.path];
      sizes := sizes + [d.size];
      var index := PositionOf(d.schema);
      if index < |schemas| {
        fileSchemas := fileSchemas + [index];
      } else {
        fileSchemas := fileSchemas + [|schemas|];
        schemas := schemas + [d.schema];
      }
      assert AsFileTuples() == before + [d];
    }

    method PositionOf(s: Schema) returns (index: nat)
      ensures index <= |schemas|
      ensures index < |schemas| ==> schemas[index] == s
      ensures index == |schemas| ==> s !in schemas
    {
      index := 0;
      while index < |schemas| && schemas[index] != s
        invariant index <= |schemas| && s !in schemas[..index]
      {
        index := index + 1;
      }
    }

    method MergeInplace(other: FileSetPayload)
      requires Valid() && other.Valid() && other != this
      modifies this
      ensures Valid() && AsFileTuples() == MergeFiles(old(AsFileTuples()), other.AsFileTuples())
    {
      var tuples := other.AsFileTuples();
      ghost var before := AsFileTuples();
      var k := 0;
      while k < |tuples|
        invariant k <= |tuples| && Valid()
        invariant AsFileTuples() == MergeFiles(before, tuples[..k])
      {
        assert tuples[..k + 1][..k] == tuples[..k];
        Add(tuples[k]);
        k := k + 1;
      }
      assert tuples[..k] == tuples;
    }

    /** `merge`: a copy of the longer list (the other one on a tie) absorbs the shorter. */
    method Merge(other: FileSetPayload) returns (r: FileSetPayload)
      requires Valid() && other.Valid()
      ensures fresh(r) && r.Valid()
      ensures r.AsFileTuples() ==
              if |filePaths| > |other.filePaths| then MergeFiles(AsFileTuples(), other.AsFileTuples())
              else MergeFiles(other.AsFileTuples(), AsFileTuples())
    {
      if |filePaths| > |other.filePaths| {
        r := new FileSetPayload.Clone(this);
        r.MergeInplace(other);
      } else {
        r := new FileSetPayload.Clone(other);
        r.MergeInplace(this);
      }
    }
  }
}
