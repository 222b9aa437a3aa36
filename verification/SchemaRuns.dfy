/** The schema of the latest checkpoint in every run: the join of the schemas of everything that was applied. */
module SchemaRuns {
  import opened Prelude
  import opened Schemas
  import opened SchemaMerging
  import opened Checkpoints
  import opened CheckpointContents
  import opened Protocol
  import opened ProtocolRuns
  import opened ExactlyOnce

  /** The schemas that a stored commit brings. */
  function EntrySchemas(w: World, e: Entry): seq<Schema> {
    match e
    case Speedboat(id) => if id in w.speedboats then DataSchemas(w.speedboats[id].typeFiles) else []
    case Iceberg(id) => if id in w.icebergs then [w.icebergs[id].metadata.tableSchema] else []
  }

  function LogSchemas(w: World, log: seq<Entry>): seq<Schema> {
    if |log| == 0 then [] else LogSchemas(w, log[..|log| - 1]) + EntrySchemas(w, log[|log| - 1])
  }

  lemma EntrySchema(w: World, c: Checkpoint, e: Entry)
    requires ApplyEntry(w, c, e).Some?
    ensures MergeEach([c.schema] + EntrySchemas(w, e)) == Some(ApplyEntry(w, c, e).value.schema)
  {
    match e {
      case Speedboat(id) => SpeedboatSchema(c, w.speedboats[id], w.compactions);
      case Iceberg(id) => MergeEachMore([c.schema], w.icebergs[id].metadata.tableSchema);
    }
  }

  lemma FoldMore(s: Schema, before: seq<Schema>, m: Schema, more: seq<Schema>)
    requires MergeEach([s] + before) == Some(m)
    ensures MergeEach([s] + (before + more)) == MergeEach([m] + more)
  {
    MergeEachConcat([s] + before, more);
    assert [s] + (before + more) == ([s] + before) + more;
  }

  /** Replaying a log merges the schemas of its commits, in order. */
  lemma {:induction false} ReplaySchema(w: World, c: Checkpoint, log: seq<Entry>)
    requires Replay(w, c, log).Some?
    ensures MergeEach([c.schema] + LogSchemas(w, log)) == Some(Replay(w, c, log).value.schema)
  {
    if |log| == 0 {
      assert [c.schema] + LogSchemas(w, log) == [c.schema];
    } else {
      var m := |log| - 1;
      var d := Replay(w, c, log[..m]).value;
      ReplaySchema(w, c, log[..m]);
      EntrySchema(w, d, log[m]);
      FoldMore(c.schema, LogSchemas(w, log[..m]), d.schema, EntrySchemas(w, log[m]));
    }
  }

  lemma {:induction false} LogSchemasMean(w: World, log: seq<Entry>, s: Schema)
    ensures s in LogSchemas(w, log) <==> exists e :: e in log && s in EntrySchemas(w, e)
  {
    if |log| != 0 {
      var m := |log| - 1;
      LogSchemasMean(w, log[..m], s);
      assert forall e :: e in log <==> e in log[..m] || e == log[m];
    }
  }

  /** An Iceberg commit that is stored, or a speedboat commit whose tracker is done, brings the schema. */
  ghost predicate Brings(w: World, s: Schema) {
    exists e :: DoneCount(w, e) == 1 && s in EntrySchemas(w, e)
  }

  /** The schemas of all stored commits have unique names. */
  ghost predicate CommitsWellFormed(w: World) {
    && (forall id :: id in w.speedboats ==> InfosWellFormed(w.speedboats[id].typeFiles))
    && (forall id :: id in w.icebergs ==> WellFormedSchema(w.icebergs[id].metadata.tableSchema))
  }

  lemma EntryWellFormed(w: World, e: Entry, s: Schema)
    requires CommitsWellFormed(w) && s in EntrySchemas(w, e)
    ensures WellFormedSchema(s)
  {
    if e.Speedboat? { DataSchemasFrom(w.speedboats[e.id].typeFiles, s); }
  }

  /** The log of an accounted world brings exactly the schemas of the done commits. */
  lemma CountedBrings(w: World, log: seq<Entry>, s: Schema)
    requires Counted(w, log)
    ensures s in LogSchemas(w, log) <==> Brings(w, s)
  {
    LogSchemasMean(w, log, s);
    forall e
      ensures e in log <==> DoneCount(w, e) == 1
    {
      assert e in log <==> e in multiset(log);
      assert multiset(log)[e] == DoneCount(w, e);
    }
  }

  lemma ReplayedSchema(w: World, log: seq<Entry>)
    requires Replayed(w, log)
    ensures MergeEach([Schema([])] + LogSchemas(w, log)) == Some(Current(w).schema)
  {
    ReplaySchema(w, NewCheckpoint(w.table, Current(w).id), log);
  }

  lemma LogWellFormed(w: World, log: seq<Entry>)
    requires CommitsWellFormed(w)
    ensures AllWellFormed([Schema([])] + LogSchemas(w, log))
  {
    var a := [Schema([])] + LogSchemas(w, log);
    forall i | 0 <= i < |a|
      ensures WellFormedSchema(a[i])
    {
      if i > 0 {
        assert a[i] in LogSchemas(w, log);
        LogSchemasMean(w, log, a[i]);
        var e :| e in log && a[i] in EntrySchemas(w, e);
        EntryWellFormed(w, e, a[i]);
      }
    }
  }

  lemma FoldUpper(rest: seq<Schema>, m: Schema, s: Schema)
    requires AllWellFormed([Schema([])] + rest) && MergeEach([Schema([])] + rest) == Some(m)
    ensures WellFormedSchema(m) && (s in rest ==> LeqSchema(s, m))
  {
    var a := [Schema([])] + rest;
    MergeEachUpper(a);
    if s in rest {
      var i :| 0 <= i < |rest| && rest[i] == s;
      assert a[i + 1] == s;
    }
  }

  lemma FoldLeast(rest: seq<Schema>, m: Schema, bound: Schema)
    requires AllWellFormed([Schema([])] + rest) && MergeEach([Schema([])] + rest) == Some(m)
    requires WellFormedSchema(bound) && forall s :: s in rest ==> LeqSchema(s, bound)
    ensures LeqSchema(m, bound)
  {
    MergeEachLeast([Schema([])] + rest, bound);
  }

  lemma AccountedUpper(w: World, log: seq<Entry>, s: Schema)
    requires Replayed(w, log) && Counted(w, log) && CommitsWellFormed(w)
    ensures WellFormedSchema(Current(w).schema)
    ensures Brings(w, s) ==> LeqSchema(s, Current(w).schema)
  {
    ReplayedSchema(w, log);
    LogWellFormed(w, log);
    CountedBrings(w, log, s);
    FoldUpper(LogSchemas(w, log), Current(w).schema, s);
  }

  lemma AccountedLeast(w: World, log: seq<Entry>, bound: Schema)
    requires Replayed(w, log) && Counted(w, log) && CommitsWellFormed(w)
    requires WellFormedSchema(bound) && forall s :: Brings(w, s) ==> LeqSchema(s, bound)
    ensures LeqSchema(Current(w).schema, bound)
  {
    ReplayedSchema(w, log);
    LogWellFormed(w, log);
    forall s | s in LogSchemas(w, log)
      ensures LeqSchema(s, bound)
    {
      CountedBrings(w, log, s);
    }
    FoldLeast(LogSchemas(w, log), Current(w).schema, bound);
  }

  /** In every run the schema of the latest checkpoint bounds the schemas of all Iceberg commits and of the data of all
      speedboat commits whose tracker is done, and it is the least schema that does. */
  lemma LatestSchema(h: seq<World>, acts: seq<Action>, s: Schema, bound: Schema)
    requires IsRun(h, acts) && CommitsWellFormed(h[|acts|])
    ensures Brings(h[|acts|], s) ==> LeqSchema(s, Current(h[|acts|]).schema)
    ensures WellFormedSchema(bound) && (forall t :: Brings(h[|acts|], t) ==> LeqSchema(t, bound)) ==>
              LeqSchema(Current(h[|acts|]).schema, bound)
  {
    LatestIsReplay(h, acts);
    var log := Flat(Batches(h, acts));
    AccountedUpper(h[|acts|], log, s);
    if WellFormedSchema(bound) && forall t :: Brings(h[|acts|], t) ==> LeqSchema(t, bound) {
      AccountedLeast(h[|acts|], log, bound);
    }
  }
}
