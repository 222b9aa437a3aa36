# Powdrr engine: a verified model of its core

Powdrr keeps a table as a chain of immutable checkpoints that many workers advance with optimistic
transactions on a shared metadata store. Around that sit compaction, a compiler from filters to SQL, a
translator for Painless scripts, pruning by statistics, fan-out over peers, caches, and a schema algebra.
This project models that core in Dafny 4.11 and proves what it promises. `dafny verify dfyconfig.toml`
checks the whole project.

Code that the source runs by changing things in place is a class or a method with loops, proved against a
function on values; the theorems are about those functions. Where the source aborts (a failed `unwrap`, an
assertion, `panic!`), functions return `None` and methods return `false` or `None`.

| file | what it holds |
|---|---|
| `Prelude.dfy` | options, string order, filtering, sorting |
| `Schemas.dfy`, `SchemaMerging.dfy`, `Coercion.dfy`, `ArrowIds.dfy` | the schema algebra |
| `FileSets.dfy`, `Checkpoints.dfy`, `CheckpointContents.dfy`, `CheckpointObject.dfy` | file sets and checkpoints, as values and as mutable objects, and exactly what every commit leaves in them |
| `Descriptors.dfy` | checkpoint names |
| `Protocol.dfy`, `Transactions.dfy`, `MetadataStore.dfy` | the store, its conditional writes, and runs of any number of workers with stale reads |
| `ProtocolSafety.dfy`, `ProtocolRuns.dfy`, `ExactlyOnce.dfy`, `RunTheorems.dfy` | what every write keeps, and safety over all runs |
| `SchemaRuns.dfy`, `ExtensionRuns.dfy`, `WorkTurns.dfy`, `ProtocolEffects.dfy` | over all runs: the schema of the latest checkpoint, the life of a work item, the slots for pending work, and what an action with present reads brings about |
| `CompactionRows.dfy`, `CompactionLists.dfy`, `CompactionRuns.dfy` | exactly when compaction keeps the visible rows, in every run of the protocol |
| `RunSteps.dfy`, `CompactionCases.dfy`, `StaleListCases.dfy` | runs written out action by action, in which compaction loses, doubles and brings back rows |
| `SqlFilters.dfy`, `SqlBuilders.dfy` | SQL filters under three-valued logic, and the filter stack |
| `PainlessTokens.dfy`, `PainlessParser.dfy`, `PainlessPrinter.dfy` | the Painless tokenizer, parser and printer |
| `Pruning.dfy`, `FanOut.dfy` | pruning against a full scan, fan-out and grouping |
| `StatsCache.dfy`, `StatsRecency.dfy`, `Reservations.dfy`, `ReservationDrops.dfy` | the statistics LRU and the reservation actor |

## How the protocol is modelled

A world is the content of the store for one table together with the clock. A worker reads pointers and
trackers whenever it likes and then tries one all-or-nothing conditional write, so an action names the
earlier worlds it read from (`Protocol.Next`). A run is any sequence of actions from a freshly created table
(`Protocol.IsRun`). Records that are written once (commits, checkpoints, work items) are looked up at the time
of the write. Ids that the source generates are parameters of the actions; nothing depends on their being
fresh, because every record is created only if absent.

## Results that differ from what one might expect

- `update_extension_checkpoint` asserts that its commit went through; the model lets the write fail quietly,
  which allows more runs.
- A comparison with a field unknown to the table becomes the literal `false`, so under a negation `finalize`
  accepts rows that the filter rejects (`SqlFilters.NegationChanges`), and inside an operand it rejects rows
  that the filter accepts (`SqlFilters.NullTestChanges`). A comparison that is negated or tested for null is
  kept exactly when its left side does not become the null literal (`SqlFilters.TestedComparison`); without
  such comparisons every filter is kept (`SqlFilters.FinalizeAcceptsSame`).
- A Boolean column missing from a file reads as `false` instead of null (`SqlFilters.ColumnKept` gives the
  exact condition, `SqlFilters.MissingBooleanChanges` a case).
- Strict range pruning goes wrong exactly when the bound and the literal differ but convert to the same double
  (`Pruning.GreaterThanExact`, `Pruning.LessThanExact`); 2^53 and 2^53 + 1 are such a pair.
- Compaction drops rows whose `_id` is null. While the files of the work item are still in the checkpoint, the
  visible rows are kept exactly when every visible row of the item has an id (`CompactionRows.CompactionKeepsRows`,
  `CompactionRuns.SparedCompaction`; `CompactionCases.RowWithoutIdLost` is a case of either kind).
- A work item that is made while an earlier one has been handed out and has not landed holds the same files
  again. If both land, two things go wrong: rows are there twice (`CompactionCases.CompactedTwice`), and a row that
  was deleted after the first item was made comes back, because the first compaction copies it and the second
  takes the delete file away (`CompactionCases.DeletedRowReturns`). For a list that is the current one with the new
  file, the exact condition is `CompactionRows.Harmless` (`CompactionRuns.CompactionInRuns`).
- A compactor loads the list of Iceberg files before `commit_iceberg` reads the pointer, and nothing compares the
  two. If another compaction lands in between, the files that it brought are dropped from the checkpoint, and
  rows that only they hold are lost (`StaleListCases.StaleListLosesRow`). Whatever the list, a landing changes no
  visible row exactly when it is balanced row by row (`CompactionRuns.IcebergInRuns`, `CompactionRuns.CompactionInRuns`).
- A null-safe chain yields an undefined value instead of null exactly when all its prefixes are mappings and
  the last field is absent (`PainlessPrinter.ChainNavigates`; `PainlessPrinter.MissingFieldUndefined` is a case).
- `coerce_value` aborts on a document whose explicit null meets an object type, which merging schemas can
  bring about (`Coercion.MergedSchemaCanAbort`); it succeeds exactly on conforming documents
  (`Coercion.CoerceTotal`).
- The standard pointer of one table and the extension pointer of another share a key exactly when the first
  table's name spells the second's name, a hash sign and the extension (`Descriptors.LatestKeysCollide`); two
  extension pointers can share one likewise (`Descriptors.ExtensionKeysCollide`). Table names without a hash
  sign exclude both (`Descriptors.KeysApart`).
- A table that was pushed out of the LRU and reserved again is both cached and queued. When its last
  reservation is given back, Release drops it although the LRU still counts it; that happens exactly then
  (`Reservations.CachedTablesDropped`, with a run of five messages in `Reservations.ReturnsDropped`).

## Model

| member | source | states |
|---|---|---|
| `Schemas.MergeFromMeaning` | control_plane/src/schema_massager.rs:171-234 | `merge_from` succeeds exactly on compatible schemas, keeps names unique, and gives each name the join of its two types |
| `Schemas.MergeFromOrder` | control_plane/src/schema_massager.rs:213-234 | fields keep their order and new ones are appended in theirs |
| `Schemas.MergeFromKeepsWellFormed` | control_plane/src/schema_massager.rs:213-234 | merging well-formed schemas gives a well-formed one, at every depth |
| `Schemas.MergeFromUpper` | control_plane/src/schema_massager.rs:213-234 | the result bounds both inputs from above in the information order |
| `Schemas.MergeFromLeast` | control_plane/src/schema_massager.rs:213-234 | whenever a common upper bound exists the merge succeeds and lies below it: a partial join |
| `Schemas.MergeUpper` | control_plane/src/schema_massager.rs:171-211 | the same upper bound for single types, through objects and arrays |
| `Schemas.MergeLeast` | control_plane/src/schema_massager.rs:171-211 | the same leastness for single types |
| `SchemaMerging.MergeFromSelf` | control_plane/src/schema_massager.rs:213-234 | merging a schema into itself changes nothing |
| `SchemaMerging.MergeEachDefined` | control_plane/src/schema_massager.rs:156-169 | a list of schemas merges exactly when it has a common upper bound |
| `SchemaMerging.MergeEachUpper` | control_plane/src/schema_massager.rs:156-169 | the merge of a list bounds every schema in it |
| `SchemaMerging.MergeEachLeast` | control_plane/src/schema_massager.rs:156-169 | and is below every common bound |
| `SchemaMerging.MergeEachAnyOrder` | control_plane/src/schema_massager.rs:156-169 | every order of the same schemas merges or none does, and the results bound each other in the information order |
| `SchemaMerging.MergeAllUpper` | control_plane/src/schema_massager.rs:156-169 | `merge_all` succeeds exactly on lists that have a common upper bound, and returns a well-formed one with sorted, unique names |
| `SchemaMerging.MergeAllLeast` | control_plane/src/schema_massager.rs:156-169 | it lies below every common upper bound |
| `SchemaMerging.MergeAllFlatAnyOrder` | control_plane/src/schema_massager.rs:156-169 | for schemas without nested objects, arrays of scalars included, `merge_all` returns the identical list in every order |
| `SchemaMerging.PowdrrSchema.MergeInPlace` | control_plane/src/schema_massager.rs:213-234 | the in-place loop computes the merge, and aborts exactly when there is none |
| `SchemaMerging.PowdrrSchema.MergeOneField` | control_plane/src/schema_massager.rs:171-211 | `merge_field` on a copy of the nested schema is the join of two types |
| `Coercion.CoerceTotal` | control_plane/src/schema_massager.rs:244-264 | coercion succeeds exactly on documents whose object-typed fields hold objects, all the way down |
| `Coercion.CoerceMeaning` | control_plane/src/schema_massager.rs:244-281 | existing values are kept, objects are descended into, and every missing field gets its default |
| `Coercion.CoerceIdempotent` | control_plane/src/schema_massager.rs:244-264 | coercing twice is coercing once |
| `Coercion.DefaultIsCoerced` | control_plane/src/schema_massager.rs:266-281 | the default of an object type needs no further coercion |
| `Coercion.DefaultIsNulls` | control_plane/src/schema_massager.rs:266-281 | the default of a type is null at every leaf and has exactly the members of the type |
| `Coercion.MissingIsNulls` | control_plane/src/schema_massager.rs:244-281 | so is what coercion puts where a field is missing |
| `Coercion.MergedSchemaCanAbort` | control_plane/src/schema_massager.rs:244-264 | a document that fits its own schema can abort under a merged one |
| `Coercion.CoerceValue` | control_plane/src/schema_massager.rs:244-264 | the pass over the fields computes the coercion |
| `ArrowIds.ToArrowType` | control_plane/src/schema_massager.rs:66-89 | the ids inside a converted type are exactly those between the given and the returned index, each once |
| `ArrowIds.ToArrowField` | control_plane/src/schema_massager.rs:106-115 | a field's own id comes last, after everything inside it |
| `ArrowIds.ToArrowFieldsInternal` | control_plane/src/schema_massager.rs:340-351 | the accumulated ids are dense and unique; the result has every member, sorted by name |
| `ArrowIds.ToArrowFields` | control_plane/src/schema_massager.rs:334-338 | ids of a whole schema start at one, without gap or repetition |
| `FileSets.MergeFilesMeaning` | control_plane/src/data_contract.rs:948-970 | merging appends exactly the missing paths and leaves what is there untouched |
| `FileSets.RemoveFilesMeaning` | control_plane/src/data_contract.rs:891-905 | removing drops exactly the named paths |
| `FileSets.RemoveUndoesMerge` | control_plane/src/data_contract.rs:891-970 | adding files and removing them again restores the list |
| `FileSets.MergeIntoEmpty` | control_plane/src/data_contract.rs:907-970 | merging what `as_file_tuples` reads into an empty file set gives the same list back exactly when no path is listed twice |
| `FileSets.FileSetPayload.Remove` | control_plane/src/data_contract.rs:891-905 | the in-place loop filters the descriptors and keeps the arrays in step |
| `FileSets.FileSetPayload.Add` | control_plane/src/data_contract.rs:954-970 | adds a descriptor unless its path is listed; schema indices stay in range |
| `FileSets.FileSetPayload.PositionOf` | control_plane/src/data_contract.rs:960-964 | finds a schema's index, or reports that it is not listed |
| `FileSets.FileSetPayload.MergeInplace` | control_plane/src/data_contract.rs:948-952 | the loop merges the other list |
| `FileSets.FileSetPayload.Merge` | control_plane/src/data_contract.rs:936-946 | a copy of the longer list absorbs the shorter |
| `Checkpoints.ApplySpeedboatKeeps` | control_plane/src/data_contract.rs:335-379 | a speedboat commit keeps a checkpoint well formed and leaves its Iceberg part and identity alone |
| `CheckpointContents.SpeedboatApplies` | control_plane/src/data_contract.rs:335-379 | a speedboat commit applies exactly when its infos are of a known kind, its data has schemas that merge with that of the checkpoint, and its compaction is announced |
| `CheckpointContents.SpeedboatSchema` | control_plane/src/data_contract.rs:335-379 | the new schema is that of the checkpoint with the schemas of the data merged in, in order |
| `CheckpointContents.SpeedboatSchemaJoins` | control_plane/src/data_contract.rs:335-379 | it bounds the schema of the checkpoint and of all the data, and is the least that does |
| `CheckpointContents.SpeedboatContents` | control_plane/src/data_contract.rs:335-433 | data files are appended unless listed, delete files are appended, and what the compaction names is taken out of both |
| `Checkpoints.ApplyIcebergKeeps` | control_plane/src/data_contract.rs:381-406 | an Iceberg commit makes coverage current and keeps paths unique |
| `CheckpointContents.IcebergApplies` | control_plane/src/data_contract.rs:381-433 | an Iceberg commit applies exactly when its schema merges and its compactions are announced |
| `CheckpointContents.IcebergContents` | control_plane/src/data_contract.rs:381-433 | its list becomes the Iceberg part, its schema is merged in, its deletes are added, and what its compactions name is taken out |
| `CheckpointContents.IcebergCoverage` | control_plane/src/data_contract.rs:381-433 | coverage of a file is kept, with its value, exactly when the file is current and was not compacted |
| `CheckpointContents.RemovedMeans` | control_plane/src/data_contract.rs:492-512 | what a list of compactions takes out is what one of them names; a compaction that was never announced aborts |
| `CheckpointContents.RetainedCoverage` | control_plane/src/data_contract.rs:535-543 | `retain_current_extension_metadata` keeps exactly the coverage of current files and of the checkpoint, with its value |
| `Checkpoints.AddCoverageKeeps` | control_plane/src/data_contract.rs:590-654 | coverage is only added for current files and the checkpoint itself |
| `CheckpointContents.AddedCoverage` | control_plane/src/data_contract.rs:590-654 | exactly the missing coverage of current files and of the checkpoint is added, nothing is overwritten, and a change is reported exactly if there is one |
| `Checkpoints.CloneAndApplyKeeps` | control_plane/src/data_contract.rs:307-333 | whatever is applied, the clone is well formed, has the new id and the same origin |
| `CheckpointContents.CloneChanges` | control_plane/src/data_contract.rs:307-333 | a clone reports a change exactly if there are commits or some extension commit adds coverage |
| `Checkpoints.ApplyReplacementKeeps` | control_plane/src/data_contract.rs:435-490 | the replacement holds the new parquet file, lost exactly the compacted files and deletes, and is well formed |
| `CheckpointContents.ReplacementKeeps` | control_plane/src/data_contract.rs:435-490 | a replacement is defined exactly when there are speedboat files and a listed file of the compaction's name; it keeps the identity, the schema, and the coverage of what is current |
| `CheckpointContents.ReplacementStarts` | control_plane/src/data_contract.rs:455-466 | without an Iceberg part, that of the commit is taken, cut down to the new file and its statistics |
| `CheckpointContents.ReplacementExtends` | control_plane/src/data_contract.rs:467-489 | an Iceberg part stays, but for what it lacks: the new file, the statistics of the compaction's files, and any of three parts that are empty |
| `Checkpoints.SelectFileMeaning` | control_plane/src/data_contract.rs:972-988 | the first file whose path contains the name is selected; none is exactly when no path does |
| `Checkpoints.CoverageDefinitionsAgree` | control_plane/src/data_contract.rs:514-574 | counting covered files and looking up each file always agree |
| `Checkpoints.CommitsCoverCheckpoint` | control_plane/src/data_contract.rs:590-654 | extension commits that together name every current file cover the checkpoint |
| `CheckpointObject.TableMetadataCheckpoint.ApplySpeedboatCommit` | control_plane/src/data_contract.rs:335-379 | the mutating method has the effect of the function on values, whose schema, files and deletes `CheckpointContents` states, and aborts exactly when that is undefined |
| `CheckpointObject.TableMetadataCheckpoint.ApplyIcebergCommit` | control_plane/src/data_contract.rs:381-406 | likewise for Iceberg commits |
| `CheckpointObject.TableMetadataCheckpoint.DropCompacted` | control_plane/src/data_contract.rs:408-433 | likewise for compactions |
| `CheckpointObject.TableMetadataCheckpoint.RetainCurrentExtensionMetadata` | control_plane/src/data_contract.rs:535-543 | keeps exactly the coverage of current files and of the checkpoint |
| `CheckpointObject.TableMetadataCheckpoint.AddExtensionCoverage` | control_plane/src/data_contract.rs:590-654 | the two loops add the missing coverage and report whether there was any |
| `CheckpointObject.TableMetadataCheckpoint.CloneWith` | control_plane/src/data_contract.rs:307-333 | the three loops on a fresh clone compute the new checkpoint and whether it changed |
| `CheckpointObject.CoverCheckpoint` | control_plane/src/data_contract.rs:606-651 | covers Iceberg files, speedboat files and the checkpoint key, never overwriting earlier coverage |
| `Descriptors.RoundTrip` | control_plane/src/checkpoint_descriptor.rs:17-53 | a name reads back as its descriptor exactly when no part holds a colon |
| `Descriptors.FromFullNamePrints` | control_plane/src/checkpoint_descriptor.rs:17-53 | every name that can be read prints back to itself |
| `Descriptors.RepublishSame` | query_runtime/src/dynamodb_service_impl.rs:218-317 | flattening a name to an id and rebuilding it gives the name back exactly for the name's own table |
| `Descriptors.LatestKeysCollide` | query_runtime/src/dynamodb.rs:650-655 | when a standard and an extension pointer share a key |
| `Descriptors.ExtensionKeysCollide` | query_runtime/src/dynamodb.rs:650-655 | two extension pointers share a key exactly when they are the same, or a hash sign lets one be read as the other |
| `Descriptors.KeysApart` | query_runtime/src/dynamodb.rs:650-655 | tables without a hash sign in their names never share a key |
| `ProtocolSafety.SpeedboatKeeps` | query_runtime/src/dynamodb.rs:919-987 | a speedboat commit, read however stale, keeps the invariant and moves the store forward |
| `ProtocolSafety.MergeSpeedboatPaths` | control_plane/src/data_contract.rs:1013-1022 | a work item gains exactly the data files that the commit announces |
| `WorkTurns.MergedItem` | control_plane/src/data_contract.rs:1013-1022 | `merge_speedboat` is defined exactly when the data has schemas, and appends the data files that the item does not list |
| `WorkTurns.SpeedboatLands` | query_runtime/src/dynamodb.rs:919-987 | in every run a speedboat commit lands exactly when it brings something, its data has schemas, its ids are new and the pointer to the pending work is as it was read; then it is stored, waits to be applied, and its data files wait to be indexed after those that did; otherwise nothing changes |
| `ProtocolSafety.IcebergWrites` | query_runtime/src/dynamodb.rs:1024-1160 | a successful Iceberg commit applies to the current checkpoint, never to a stale one |
| `ProtocolSafety.IcebergKeeps` | query_runtime/src/dynamodb.rs:1024-1212 | it keeps the invariant and moves the store forward, replacements included |
| `ProtocolSafety.StandardWrites` | query_runtime/src/dynamodb_service_impl.rs:1141-1254 | a successful checkpoint update applies commits whose trackers were pending to the current checkpoint |
| `ProtocolSafety.StandardKeeps` | query_runtime/src/dynamodb.rs:782-838 | it keeps the invariant and moves the store forward |
| `ProtocolSafety.EsKeeps` | query_runtime/src/dynamodb_service_impl.rs:1256-1351 | a covered checkpoint is published under the "es" pointer only with a greater name |
| `ProtocolSafety.TakeKeeps` | query_runtime/src/dynamodb.rs:869-892 | handing out the pending work item loses no file |
| `ProtocolSafety.TakeCompactionKeeps` | query_runtime/src/dynamodb.rs:894-917 | likewise for compaction work |
| `ProtocolSafety.CompleteKeeps` | query_runtime/src/dynamodb.rs:1214-1241 | completing a work item keeps the invariant |
| `ProtocolSafety.WaitingDoneKeeps` | query_runtime/src/dynamodb_service_impl.rs:1345-1350 | finishing a waiting tracker keeps the invariant |
| `ProtocolSafety.ClaimKeeps` | query_runtime/src/dynamodb_service_impl.rs:1005-1068 | claiming cleanup leases leaves more than a lease length between claims |
| `ProtocolSafety.FinishKeeps` | query_runtime/src/dynamodb_service_impl.rs:771-787 | finishing cleanup keeps the invariant |
| `ProtocolSafety.CreateOrBumpKeeps` | query_runtime/src/dynamodb_service_impl.rs:277-317 | writing an active or request pointer moves its version forward and nothing else |
| `ProtocolRuns.NextKeeps` | query_runtime/src/dynamodb.rs:667-683 | every action keeps the invariant and moves the store forward |
| `ProtocolRuns.RunsAreSafe` | query_runtime/src/dynamodb.rs:693-753 | in every run from a created table the invariant holds throughout and no later world goes back on an earlier one |
| `ExactlyOnce.LatestIsReplay` | query_runtime/src/dynamodb_service_impl.rs:1141-1254 | in every run the latest standard checkpoint is the replay, in version order, of the Iceberg commits and exactly the speedboat commits whose tracker is done, each once |
| `ExactlyOnce.ReplayLater` | query_runtime/src/dynamodb.rs:989-1022 | what was replayed once replays the same in every later world |
| `ExactlyOnce.StandardAccounts` | query_runtime/src/dynamodb.rs:782-838 | a move of the pointer adds one batch, and that batch once |
| `ExactlyOnce.OthersAccount` | query_runtime/src/dynamodb.rs:869-987 | no other action moves the pointer or finishes a speedboat tracker |
| `SchemaRuns.ReplaySchema` | query_runtime/src/dynamodb_service_impl.rs:1141-1254 | replaying a log merges the schemas of its commits, in order |
| `SchemaRuns.LatestSchema` | query_runtime/src/dynamodb_service_impl.rs:1141-1254 | in every run the schema of the latest checkpoint bounds the schemas of all Iceberg commits and of the data of all speedboat commits whose tracker is done, and is the least that does |
| `RunTheorems.StoredCheckpointsStay` | query_runtime/src/dynamodb.rs:782-838 | every stored checkpoint is well formed and never changes |
| `RunTheorems.NoFileLost` | query_runtime/src/dynamodb.rs:919-987 | every data file of a stored commit stays in the pending work item or one handed out |
| `RunTheorems.NeverHandedOutTwice` | query_runtime/src/dynamodb_service_impl.rs:850-925 | no work item is handed out twice, whatever the workers read |
| `ExtensionRuns.ItemsAreGood` | query_runtime/src/dynamodb.rs:869-892 | in every run a work item is pending, or out under an outstanding lease, or completed, or none of these, and never two of them |
| `ExtensionRuns.PendingIsTaken` | query_runtime/src/dynamodb.rs:869-892 | a worker that reads the pointer and takes the pending item gets it: nothing is pending then, and the item is out under a lease of now |
| `ExtensionRuns.LeasedIsCompleted` | query_runtime/src/dynamodb.rs:1214-1241 | an item is completed exactly while its lease is outstanding: its commit is stored and waits to be applied, its lease is done; otherwise nothing changes |
| `WorkTurns.OneItemAtATime` | query_runtime/src/dynamodb_service_impl.rs:1201-1240 | in every run the compaction slot holds one item at a time: a new one is made only when the slot is empty, and only handing the item out for the first time empties it |
| `WorkTurns.CompactionIsTaken` | query_runtime/src/dynamodb.rs:894-917 | a worker that reads the slot and takes the item gets it, under a lease of now, exactly when the item was never out |
| `RunTheorems.EsFrontier` | query_runtime/src/dynamodb_service_impl.rs:1256-1351 | the "es" pointer always names a fully covered checkpoint and strictly increases in name order |
| `ProtocolEffects.MovedIsWaiting` | query_runtime/src/dynamodb.rs:782-838 | whenever the latest checkpoint moves, the new one is covered by the index or waits to be |
| `ProtocolEffects.CoveredForm` | query_runtime/src/dynamodb_service_impl.rs:1290-1335 | the covered form of a checkpoint has its contents, a new id, and the name of the checkpoint it stands for |
| `ProtocolEffects.CoveredIsPublished` | query_runtime/src/dynamodb_service_impl.rs:1256-1351 | a waiting checkpoint that pending extension commits cover becomes the one that the "es" pointer names |
| `ProtocolEffects.WaitingFinishes` | query_runtime/src/dynamodb_service_impl.rs:1345-1350 | an open waiting tracker that is marked done is done |
| `ProtocolEffects.LandingReplaces` | query_runtime/src/dynamodb.rs:1127-1212 | when an Iceberg commit lands, every compaction it lists is over: the replacement's record holds the new checkpoint, its lease is done, and exactly its files wait under an unclaimed cleanup lease |
| `RunTheorems.ActiveOnceCommitted` | query_runtime/src/dynamodb_service_impl.rs:277-317 | every active pointer names a checkpoint that was once the committed latest of its kind |
| `RunTheorems.ReadersSeeCommitted` | query_runtime/src/dynamodb_service_impl.rs:248-275 | so does whatever readers are told to use, with the active pointer, the request and the committed pointer read in three different worlds |
| `RunTheorems.ReadersAreTold` | query_runtime/src/dynamodb_service_impl.rs:248-275 | readers are told the active checkpoint if there is one, nothing while a first publication is asked for, and the committed checkpoint otherwise |
| `RunTheorems.PublicationShows` | query_runtime/src/dynamodb_service_impl.rs:277-317 | a publication with present reads makes readers see the committed checkpoint |
| `RunTheorems.QueuedIsRequested` | query_runtime/src/dynamodb_service_impl.rs:1361-1399 | a queued request is there afterwards |
| `RunTheorems.ClearedIsGone` | query_runtime/src/dynamodb_service_impl.rs:1122-1136 | a cleared one is gone |
| `RunTheorems.ClaimsApart` | query_runtime/src/dynamodb.rs:518-533 | two claims of one lease write different versions and are more than the lease length apart |
| `ProtocolEffects.ExpiredAreClaimed` | query_runtime/src/dynamodb_service_impl.rs:1005-1068 | expired cleanup leases can be claimed together, and then belong to a claim of now with the next version |
| `ProtocolEffects.CleanupFinishes` | query_runtime/src/dynamodb_service_impl.rs:771-787 | a finished cleanup is done |
| `RunTheorems.DoneStaysDone` | query_runtime/src/dynamodb.rs:535-564 | a done tracker stays done and is never claimed again |
| `RunSteps.WorldsRun` | query_runtime/src/dynamodb.rs:693-753 | every list of actions, from a created table, leads through a run |
| `Transactions.RunIsAtomic` | query_runtime/src/dynamodb.rs:840-867 | for every list in which only creations may share a record: going through the operations one by one succeeds exactly when no two share a record and every condition holds at the start |
| `MetadataStore.Store.Check` | query_runtime/src/dynamodb.rs:840-867 | a transaction is accepted exactly when no two operations share a record and every condition holds |
| `MetadataStore.Store.Execute` | query_runtime/src/dynamodb.rs:840-867 | a transaction is all or nothing, and its outcome is that of the operations one by one |
| `MetadataStore.Store.CommitSpeedboat` | query_runtime/src/dynamodb.rs:919-987 | the operations collected step by step are the speedboat write of the protocol; true is returned exactly when something was written |
| `MetadataStore.Store.CommitCheckpoint` | query_runtime/src/dynamodb.rs:782-838 | pointer, trackers, checkpoint, waiting tracker and compaction item go through together, exactly when all conditions hold |
| `MetadataStore.Store.UpdateStandard` | query_runtime/src/dynamodb_service_impl.rs:1141-1254 | reading the commits in a loop and committing is the standard update of the protocol; true is returned exactly when there were commits to apply, even if the write then failed |
| `MetadataStore.Store.UpdateEs` | query_runtime/src/dynamodb_service_impl.rs:1290-1335 | committing a covered checkpoint is the "es" update of the protocol |
| `MetadataStore.Store.CommitIceberg` | query_runtime/src/dynamodb.rs:1024-1212 | the five steps with their loop over compactions are the Iceberg write of the protocol; true is returned exactly when something was written |
| `MetadataStore.Store.ClaimCleanupItems` | query_runtime/src/dynamodb_service_impl.rs:1005-1068 | the claims collected in a loop are one conditional write; true is returned exactly when every lease had the version that was read |
| `MetadataStore.Store.DescribeSpeedboats` | query_runtime/src/dynamodb_service_impl.rs:1176-1190 | the loop finds all commits or aborts |
| `CompactionRows.GroupResults` | query_runtime/src/compaction.rs:314-330 | the kept rows of a joined group are those with an id and no delete, each as often as it occurs |
| `CompactionRows.GroupRemaining` | query_runtime/src/compaction.rs:314-330 | a group leaves over exactly the deletes of the item whose key none of its rows has, or some row of it without an id |
| `CompactionRows.JobRemaining` | query_runtime/src/compaction.rs:314-330 | a job leaves over exactly the deletes that some group leaves over |
| `CompactionRows.JobMeets` | query_runtime/src/compaction.rs:314-330 | however the files are grouped, the job writes the right rows, and its remaining deletes are exactly those of the item that some group does not use up |
| `CompactionRows.JobBounded` | query_runtime/src/compaction.rs:314-330 | so they lie within the bounds that `CompactionKeepsRows` asks for |
| `CompactionRows.ListedGone` | control_plane/src/data_contract.rs:381-433 | what an applied commit's compactions name is gone, so that a later commit may list them again |
| `CompactionRows.CompactionHarmless` | control_plane/src/data_contract.rs:381-433 | for a list that is the current one with the new parquet file, in any order and description, with any earlier compactions listed again, and whatever has happened to the item's files: the visible rows are unchanged exactly when every visible row that is taken out has an id and is not deleted by the item, no visible row is copied from a file that is gone, every deleted row stays deleted, and no visible row is deleted anew |
| `CompactionRows.CompactionKeepsRows` | control_plane/src/data_contract.rs:381-433 | if moreover the item's files are in place, keys are unique and the remaining deletes lie within the bounds, that is exactly when every visible row of the item has an id |
| `CompactionRows.CommitsSpare` | control_plane/src/data_contract.rs:335-433 | commits that remove none of the item's files leave the item in place |
| `CompactionRows.CompactionAfterCommits` | query_runtime/src/compaction.rs:443-464 | `CompactionKeepsRows` with any such commits between the making of the work item and the Iceberg commit |
| `CompactionRuns.StoredItem` | query_runtime/src/dynamodb_service_impl.rs:1201-1240 | in every run a stored work item is, forever, the content of the checkpoint that was the latest when it was stored |
| `CompactionRuns.ItemMade` | query_runtime/src/dynamodb_service_impl.rs:1201-1240 | every stored item was made at some step of the run |
| `CompactionRuns.StaysThere` | control_plane/src/data_contract.rs:335-433 | while no commit of the run removes one of the item's files, they stay in the latest checkpoint |
| `CompactionLists.LandingBalanced` | control_plane/src/data_contract.rs:381-433 | for every Iceberg commit, whatever its list holds or lacks and whatever compactions it names: the visible rows are unchanged exactly when every row that stays visible comes in as often as it goes out, every row that becomes visible was not there and does not come in, and every row that is hidden anew was not there |
| `CompactionLists.CompactionBalanced` | query_runtime/src/compaction.rs:314-384 | the same for a compaction, counted over what it copies, what else its list brings or lacks and what the other compactions it names take out |
| `CompactionRuns.IcebergInRuns` | query_runtime/src/dynamodb.rs:1024-1160 | in every run, for every Iceberg commit that lands, the condition of `LandingBalanced` is exactly when the visible rows of the latest checkpoint stay the same |
| `CompactionRuns.CompactionInRuns` | query_runtime/src/compaction.rs:443-499 | in every run, whatever else was committed since the item was made and whatever list the compactor loaded: when its Iceberg commit lands, the visible rows of the latest checkpoint stay the same exactly when the condition of `CompactionBalanced` holds; if the list is the current one with the new file, exactly when the four row conditions of `CompactionHarmless` hold |
| `CompactionRuns.SparedCompaction` | query_runtime/src/compaction.rs:443-499 | in every run where moreover nothing has removed the item's files since it was made, exactly when every visible row of the item has an id |
| `CompactionCases.RowWithoutIdLost` | query_runtime/src/compaction.rs:314-334 | a run in which a compaction meets every hypothesis of `SparedCompaction` and writes a row; another row that it takes out stays visible exactly when it has an id |
| `CompactionCases.CompactedTwice` | query_runtime/src/dynamodb_service_impl.rs:1214-1230 | in the same run two items, each made from its own checkpoint, hold the same file; after both have landed its row is visible twice |
| `CompactionCases.DeletedRowReturns` | query_runtime/src/dynamodb_service_impl.rs:1214-1230 | and a row that was deleted between the two items, hidden until the second one lands, is visible again after it |
| `StaleListCases.StaleListLosesRow` | query_runtime/src/compaction.rs:367-380 | a run with two compactors in which the one that loaded its list first lands last; the row that only the other one's file holds is visible until then and gone after it |
| `SqlFilters.FinalizeAcceptsSame` | query_core/src/schema_massager.rs:187-284 | any filter fitted to a file accepts the same rows under three-valued logic, when no comparison under a negation or inside an operand has a left side that becomes the null literal and no Boolean column is missing |
| `SqlFilters.FilterHardened` | query_core/src/schema_massager.rs:187-284 | under the same condition every truth value stays, or hardens from unknown to false |
| `SqlFilters.FilterKept` | query_core/src/schema_massager.rs:187-284 | when no comparison at all has such a left side, every expression keeps its value |
| `SqlFilters.AggregateKept` | query_core/src/schema_massager.rs:187-284 | an aggregate stays the same aggregate, of an expression with the same value on every row |
| `SqlFilters.DenormalizeFlattens` | query_core/src/schema_massager.rs:228-243 | column names are flat: dots become underscores and nothing else changes |
| `SqlFilters.TestedComparison` | query_core/src/schema_massager.rs:206-224 | a comparison that is negated or tested for null is kept exactly when its left side does not become the null literal |
| `SqlFilters.ColumnKept` | query_core/src/schema_massager.rs:228-243 | a column keeps its value exactly when it is not a Boolean one that the file lacks |
| `SqlFilters.NegationChanges` | query_core/src/schema_massager.rs:210-214 | a negated filter that changes |
| `SqlFilters.NullTestChanges` | query_core/src/schema_massager.rs:210-214 | a filter without negation that changes |
| `SqlFilters.MissingBooleanChanges` | query_core/src/schema_massager.rs:385-391 | a missing Boolean that changes |
| `SqlFilters.FinalizeResolves` | query_core/src/schema_massager.rs:187-284 | a fitted expression reads only columns of the file |
| `SqlFilters.DeleteFilterDroppable` | query_core/src/schema_massager.rs:52-63 | when no delete row joins, dropping the delete filter changes no truth value |
| `SqlFilters.DeleteFilterGone` | query_core/src/schema_massager.rs:52-63 | no delete filter is left at any depth of conjunctions, and no filter at all is left exactly when there was nothing else |
| `SqlFilters.OtherConjunctsStay` | query_core/src/schema_massager.rs:52-63 | exactly the other conjuncts are left, in their order |
| `SqlFilters.WithoutDeleteReads` | query_core/src/schema_massager.rs:52-63 | what is left reads a table exactly when one of the other conjuncts did |
| `SqlFilters.ConjoinTruth` | query_core/src/schema_massager.rs:400-418 | `and` and `or` denote conjunction and disjunction, also of no or one filter |
| `SqlBuilders.CompiledMeans` | query_core/src/schema_massager.rs:561-620 | a tree of contexts compiles to one filter with its meaning, or to nothing when it holds no leaf |
| `SqlBuilders.SqlBuilder.PopFilterContext` | query_core/src/schema_massager.rs:574-596 | popping folds the top context into the one below |
| `SqlBuilders.SqlBuilder.AddTree` | query_core/src/schema_massager.rs:561-602 | push, children and pop restore the depth and add the compiled tree |
| `SqlBuilders.BuildFilters` | query_core/src/schema_massager.rs:490-620 | building from any list of trees ends at depth one with a filter that denotes them all; dropping the delete filter leaves it without a reference to the deletes table, unless a tree has one |
| `SqlBuilders.BuiltReads` | query_core/src/schema_massager.rs:490-620 | once the delete filter is dropped, a built filter reads the deletes table only where one of its trees does |
| `PainlessTokens.Tokenize` | control_plane/src/painless_parser.rs:72-196 | the loop finds the longest token at every point; together the tokens spell the script without whitespace outside literals, and each is a delimiter, a literal or plain text, of the right kind |
| `PainlessTokens.EndIsPiece` | control_plane/src/painless_parser.rs:72-196 | the stretch taken is a delimiter, plain text, or a literal that is closed unless the script ends in it |
| `PainlessTokens.EndIsLongest` | control_plane/src/painless_parser.rs:72-196 | no longer stretch from the same point is one |
| `PainlessParser.Parse` | control_plane/src/painless_parser.rs:772-934 | every parse consumes at least one token |
| `PainlessParser.ParsePrints` | control_plane/src/painless_parser.rs:772-998 | what was parsed prints as exactly the tokens consumed |
| `PainlessParser.ParseShapes` | control_plane/src/painless_parser.rs:772-998 | every parsed tree respects the four operator levels, and the parser stops only where no operator follows |
| `PainlessParser.Reparse` | control_plane/src/painless_parser.rs:772-998 | every such tree, printed, parses back to itself |
| `PainlessParser.ParsesExactly` | control_plane/src/painless_parser.rs:772-998 | the parser accepts exactly the printed forms of shaped trees |
| `PainlessParser.AdditionBindsTighter` | control_plane/src/painless_parser.rs:772-934 | for any words, a sum on either side of a product is the product's operand: addition binds tighter than multiplication |
| `PainlessParser.OperandsRead` | control_plane/src/painless_parser.rs:415-425 | a word reads as a name, null as the null reference, and no other keyword as an operand |
| `PainlessParser.ParserContext.ParseLevel` | control_plane/src/painless_parser.rs:772-934 | the loops over a position compute the parse |
| `PainlessParser.ParserContext.ParseInnerMost` | control_plane/src/painless_parser.rs:912-934 | likewise for operands and accesses |
| `PainlessParser.ParserContext.ParseOneAccess` | control_plane/src/painless_parser.rs:936-998 | likewise for one access |
| `PainlessParser.ParserContext.ParseCallParams` | control_plane/src/painless_parser.rs:983-998 | likewise for parameters |
| `PainlessPrinter.TranslateRenders` | control_plane/src/painless_parser.rs:387-572 | printing a simple expression renders its tokens |
| `PainlessPrinter.PrintingIsRenaming` | control_plane/src/painless_parser.rs:387-572 | what is parsed and printed is the consumed tokens, renamed one by one |
| `PainlessPrinter.NamesPrinted` | control_plane/src/painless_parser.rs:387-400 | a name is printed as it is exactly when it is one of the two roots or a literal, and as a type otherwise |
| `PainlessPrinter.NullTestsMean` | control_plane/src/painless_parser.rs:535-567 | a comparison of a field with null prints a condition that holds exactly of undefined and null values, or exactly of the others; any other comparison with null looks at null alone |
| `PainlessPrinter.ContainsIsMembership` | control_plane/src/painless_parser.rs:485-493 | `contains` prints as membership of the parameter in the target |
| `PainlessPrinter.CallsTranslate` | control_plane/src/painless_parser.rs:480-508 | only fields can be called, and `contains` takes exactly one parameter |
| `PainlessPrinter.CallsList` | control_plane/src/painless_parser.rs:494-506 | every other call lists the texts of its parameters, in order |
| `PainlessPrinter.CollectChain` | control_plane/src/painless_parser.rs:625-645 | the loop finds the base and all fields of a chain of any length |
| `PainlessPrinter.ChainTextIs` | control_plane/src/painless_parser.rs:579-655 | a chain prints as a conditional that tests every proper prefix, shortest first |
| `PainlessPrinter.ChainReads` | control_plane/src/painless_parser.rs:579-655 | that text is the text of a conditional on definedness and mapping tests, whose evaluation from left to right `ChainNavigates` is about |
| `PainlessPrinter.ChainNavigates` | control_plane/src/painless_parser.rs:579-655 | it never indexes a non-mapping, and navigates null-safely exactly when the last field is present or some prefix is not a mapping |
| `PainlessPrinter.MissingFieldUndefined` | control_plane/src/painless_parser.rs:579-655 | an empty mapping gives an undefined value instead of null |
| `Pruning.RoundMonotone` | query_core/src/query_path.rs:188-195 | conversion to double never swaps two integers |
| `Pruning.RoundNearest` | query_core/src/query_path.rs:188-195 | and goes to a nearest multiple of the spacing |
| `Pruning.RoundExact` | query_core/src/query_path.rs:188-195 | and is exact up to 2^53 |
| `Pruning.CompareMonotone` | query_core/src/query_path.rs:188-195 | comparing as doubles never reverses an exact comparison |
| `Pruning.ComparesByKind` | query_core/src/query_path.rs:188-195 | texts compare lexicographically, false before true, numbers as doubles, and other kinds do not compare |
| `Pruning.CompareExactly` | query_core/src/query_path.rs:188-195 | comparing as doubles tells two values apart exactly when they differ and do not convert to the same double |
| `Pruning.ColumnSurvives` | query_core/src/query_path.rs:82-186 | true statistics never rule out a matching row |
| `Pruning.EqualityRulesOut` | query_core/src/query_path.rs:99-126 | an equality rules a file out exactly when the column is null throughout or its bounds exclude the value |
| `Pruning.MembershipRulesOut` | query_core/src/query_path.rs:82-97 | a membership exactly when each of its values does |
| `Pruning.RangeRulesOut` | query_core/src/query_path.rs:128-179 | a range exactly when the column is null throughout or one of its four conditions fails on a bound |
| `Pruning.FileRuledOut` | query_core/src/query_path.rs:37-79 | a file is ruled out exactly when the first statistics of some predicate's column do |
| `Pruning.GreaterThanExact` | query_core/src/query_path.rs:137-146 | a strict lower condition keeps the file of a matching bound exactly when the two do not convert to the same double |
| `Pruning.LessThanExact` | query_core/src/query_path.rs:157-166 | likewise for a strict upper condition |
| `Pruning.SmallNeverCollide` | query_core/src/query_path.rs:188-195 | numbers up to 2^53 never convert to the same double |
| `Pruning.LargeIntegersCollide` | query_core/src/query_path.rs:137-146 | just above it a matching file is skipped |
| `Pruning.PrunedScanIsFullScan` | query_core/src/query_path.rs:37-79 | filtering only the surviving files and row groups returns the same rows in the same order |
| `FanOut.SelectionsConserve` | control_plane/src/data_contract.rs:920-934 | the selections of all peers are together the file list, for any hash and any number of peers |
| `FanOut.SelectedOnce` | control_plane/src/data_contract.rs:920-934 | every file is selected by exactly one peer |
| `FanOut.GroupBy` | query_lib/src/query_execution.rs:52-83 | every group holds all elements of one key in order, and no key has two groups |
| `FanOut.GroupingConserves` | query_lib/src/query_execution.rs:52-83 | the groups together are a permutation of the list |
| `FanOut.GroupKeyMeans` | query_lib/src/query_execution.rs:55-76 | two files share a group exactly when storage, schema and suffixes agree, in whatever order suffixes are listed |
| `FanOut.GroupInputFiles` | query_lib/src/query_execution.rs:52-83 | no group is empty, each holds all files of one key in their order, keys are distinct and come in the order of first occurrence, and the files are conserved |
| `FanOut.GroupFilesBySchema` | query_core/src/query_path.rs:18-35 | likewise by schema alone |
| `FanOut.ExtensionGroups` | query_lib/src/query_execution.rs:339-350 | the table maps every suffix to its locations in order |
| `FanOut.KeepThenGroup` | query_lib/src/query_execution.rs:165-181 | filtering by suffix before grouping is restricting the groups |
| `FanOut.KeepsFiles` | query_lib/src/query_execution.rs:165-181 | the filter takes out exactly the extension files of other suffixes and changes nothing else |
| `StatsCache.StepKeeps` | query_lib/src/data_access.rs:111-152 | keys stay unique and the size within capacity |
| `StatsCache.LargerCacheHoldsMore` | query_lib/src/data_access.rs:111-152 | fed the same operations, a larger cache holds everything the smaller holds, with equal values |
| `StatsRecency.OrderedByLastUse` | query_lib/src/data_access.rs:111-152 | after any operations the entries are in the order of their last use, where inserting uses a key, and so does looking it up while it is held |
| `StatsRecency.HeldKeys` | query_lib/src/data_access.rs:111-152 | an insertion keeps, of the keys held and the new one, exactly the `capacity` ones used last; a look-up keeps all, a removal all but its key |
| `StatsRecency.HeldValues` | query_lib/src/data_access.rs:111-152 | whatever is held is what was last inserted for its key |
| `StatsCache.ParquetRowGroupStatsCache.Get` | query_lib/src/data_access.rs:112-116 | a hit returns the value and makes it the most recent |
| `StatsCache.ParquetRowGroupStatsCache.Insert` | query_lib/src/data_access.rs:124-128 | inserting refines the recency list, eviction included |
| `StatsCache.ParquetRowGroupStatsCache.EvictIfNeeded` | query_lib/src/data_access.rs:145-152 | eviction keeps the newest entries |
| `StatsCache.ParquetRowGroupStatsCache.EvictOldest` | query_lib/src/data_access.rs:145-152 | a round of eviction always finds an oldest entry: the `break` is never reached |
| `StatsCache.ParquetRowGroupStatsCache.Remove` | query_lib/src/data_access.rs:130-133 | removing refines the recency list |
| `Reservations.FitSize` | query_lib/src/data_access.rs:1453-1495 | the retry loop ends within capacity with the table most recent |
| `Reservations.FitNames` | query_lib/src/data_access.rs:1453-1495 | every name that leaves the LRU is reported |
| `ReservationDrops.FitPushesOldest` | query_lib/src/data_access.rs:1453-1495 | the least recently used tables are pushed out, as few as make room |
| `ReservationDrops.ReserveNotes` | query_lib/src/data_access.rs:1435-1513 | Reserve succeeds exactly on a size that fits, counts one more reservation, and adds the related tables to those it knew |
| `Reservations.ReleaseSafe` | query_lib/src/data_access.rs:1515-1545 | Release drops no reserved table and changes no other count |
| `ReservationDrops.ReleaseDrops` | query_lib/src/data_access.rs:1515-1545 | Release drops exactly the queued tables that nobody holds any more and the tables related to these; the others stay queued |
| `Reservations.RunGood` | query_lib/src/data_access.rs:1354-1387 | with matching releases the actor never aborts, and its counts are the outstanding reservations |
| `Reservations.NeverDropsReserved` | query_lib/src/data_access.rs:1515-1545 | in no run is a table with an outstanding reservation dropped |
| `Reservations.PushedOutStayQueued` | query_lib/src/data_access.rs:1435-1545 | exactly the names pushed out and not dropped since are queued |
| `Reservations.DropsCached` | query_lib/src/data_access.rs:1515-1545 | Release drops a table that is in the LRU exactly when it is queued too and its last reservation is gone |
| `Reservations.CachedTablesDropped` | query_lib/src/data_access.rs:1435-1545 | in every well used run: exactly when it was pushed out, came back, and its last reservation is given back |
| `Reservations.ReturnsDropped` | query_lib/src/data_access.rs:1435-1545 | a run of five messages in which that happens |
| `Reservations.CacheTrackerActor.MakeRoom` | query_lib/src/data_access.rs:1453-1495 | the retry loop terminates, and the LRU is never empty when a table must go |
| `Reservations.CacheTrackerActor.ReserveTable` | query_lib/src/data_access.rs:1435-1513 | the Reserve message |
| `Reservations.CacheTrackerActor.ReleaseTable` | query_lib/src/data_access.rs:1515-1545 | the Release message |

## Left out

- Protocol.Next: one table at a time. Claims that the source makes for several tables in one transaction are modelled per table, each of which may fail.
- Protocol.CommitIceberg: the content stored for a replacement is the new checkpoint, as in the source; what `apply_compaction_for_replacement` computes is proved separately in `Checkpoints.ApplyReplacementKeeps`. Iceberg file lists are taken to have no duplicate paths.
- Protocol.UpdateStandard: whether the speedboat files are many or large enough to be compacted is a parameter of the action.
- Protocol.ReadAt: the lease look-ups before handing out work, which use another key than the one stored, and the redelivery of expired leases.
- SchemaRuns.LatestSchema: the schemas of the stored commits are taken to name no field twice at any level, which the source never checks; merging keeps it.
- StatsRecency.HeldKeys: a key that was evicted or removed and not inserted again does not compete, however recently it was used.
- Liveness: that publication requests are eventually served, that waiting trackers finish, that at most one compaction is in flight.
- CompactionRows.CompactionHarmless: the list is taken to be the current one with the new file, and compactions that are listed again to name nothing that has come back; `CompactionLists.CompactionBalanced` holds without that. A row keeps its identity when null columns are dropped on writing. The job aborts when it keeps no row; that outcome is not excluded.
- CompactionLists.CompactionBalanced: the parquet file is taken to be new to the checkpoint. One that another compactor's list has brought in already is covered by `CompactionLists.LandingBalanced`.
- CompactionRows.CompactionKeepsRows: keys are moreover taken to be unique across files, and the item's files to be still in the checkpoint (proved for commits that spare them).
- SqlFilters.Eval: the value of the expression tree. `stringize` prints the operands of `IS NULL`, `IN` and `LIKE` without parentheses (query_core/src/schema_massager.rs:352-385), so that the text printed for such a test of a negation means the negation of the test.
- SqlFilters.Finalize: nested objects (`populate_field` and the exploding of references) and named structs. An aggregate over many rows has no value here; its operand has (`SqlFilters.AggregateKept`).
- SqlFilters.FinalizeAcceptsSame: comparisons under a negation or inside an operand whose left side becomes the null literal, and missing Boolean columns. The exact conditions are those of a single comparison and a single column (`SqlFilters.TestedComparison`, `SqlFilters.ColumnKept`); in a larger filter such a comparison may not matter.
- PainlessParser.Parse: statements, assignments and `if` blocks; the model covers expressions.
- PainlessPrinter.PrintingIsRenaming: null comparisons, `contains`, null-safe accesses and calls with several parameters, which are printed by other rules (`PainlessPrinter.NullTestsMean`, `PainlessPrinter.ContainsIsMembership`, `PainlessPrinter.ChainReads`, `PainlessPrinter.CallsList`).
- PainlessTokens.Tokenize: line numbers and non-ASCII scripts.
- Pruning.PrunedScanIsFullScan: the row filter itself is taken to compare exactly; statistics are taken to be true.
- Reservations.Reserve: the memory an entry takes in the LRU is a parameter; the list of existing tables, the assertion about its length and the wrap-around of a counter released too often are not modelled.
- The Iceberg table metadata cache, the row-group statistics tracker and the eviction of serving metadata, which would add members of the same kind as the statistics cache.
- DynamoDB, S3, the Iceberg catalog, DataFusion, Redis, Arrow and Parquet calls, HTTP handlers, retry loops, channels and configuration.
- 64-bit wrap-around of versions, sizes and field indices: these are unbounded here.
