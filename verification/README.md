# Verified model of the drama-production runtime

The repository keeps generated scripts, storyboards and videos in stores that must survive retries,
crashes, concurrent callers and stale inputs. This project models those stores and the transformations
that feed them, and proves what they promise. `dafny verify dfyconfig.toml` checks everything.

Tables are maps and sequences. An object that changes its tables is a class whose methods make the same
updates in the same order as the code and are proved against specification functions on the table values;
whole runs are sequences of calls to those functions. Each store method is one atomic transaction. Generated
ids, the clock and the answers of other services are arguments. SHA-256 is any collision-free function, and
Unicode NFC is any idempotent function that keeps non-empty text non-empty and fixes ASCII.

- **Streaming script runs** (`ScriptRuns`, `ScriptRecovery`, `ScriptStore`, `EventReader`, `ScriptLaw`): the gapless event
  log, claim, crash recovery as a chain of committed transactions, and the server-sent-events reader.
- **Submission** (`Submission`, `SubmissionStore`, `SubmissionLaw`): generation jobs and their submission attempts.
- **Idempotent enqueue** (`Enqueue`, `EnqueueStore`, `EnqueueLaw`): jobs, supplier text runs and script sessions.
- **Supplier catalogue** (`Catalogue`, `CatalogueSync`, `CatalogueStore`, `CatalogueLaw`): optimistic revisions, name
  uniqueness, references, archive or delete, and synchronisation with a manifest.
- **Revision lineage** (`Lineage`, `LineageStore`, `Freshness`): append-only revisions and approval log, and
  the recursive freshness check over a dependency graph that may contain cycles.
- **Bundles** (`Bundle`, `BundleStore`, `BundleExport`, `BundleLaw`): rendered Markdown and manifest stored beside a
  storyboard, the integrity check, and the export with an exception possible at every point.
- **Object collection** (`ObjectInventory`, `GarbageCollection`): the inventory and its digest, backup
  verification and deletion.
- **Canonical JSON** (`JsonText`, `JsonRoundTrip`, `CanonicalJson`, `JsonTextLaw`, `JsonSpacing`, `KeyOrder`,
  `DigestText`): printer and decoder written to sections 4 and 7 of RFC 8259 with the flags the code passes,
  normalisation, key sorting.
- **Storyboards** (`JsonSchema`, `Storyboard`, `StoryboardShots`, `StoryboardValidation`,
  `StoryboardRenderer`, `StoryboardMigration`, `LegacyParsing`, `LegacyCandidate`, `ShotPrompts`, `SchemaLaw`,
  `ValidatorLaw`, `ShotLaw`, `PromptLaw`, `MigrationLaw`, `CandidateLaw`): the validators with their error codes,
  rendering order, and migration of legacy Markdown.

The modules ending in `Law`, with `KeyOrder`, `JsonSpacing` and `DigestText`, restate what single calls and checks
do from the tables, literals and characters alone, without the functions that specify the methods: which rows a
call writes and with which values, which error it gives and in which order the tests come, the status and key
tables written out, and the exact texts that are digested.

Some properties one might expect hold only under a condition. Each is proved to hold exactly under it, and a
lemma or method reaches the failing case:

- A manifest sync leaves exactly the declared models enabled unless a declared id belonged to another supplier
  or an archived built-in outside the manifest was enabled (`CatalogueSync.SyncIsExactIff`). Both cases are
  reached: `CatalogueSync.ForeignModelEscapesSync`, and `CatalogueSync.ArchivedModelEscapesSync`, where
  `set_supplier_model_enabled` does not look at `archived_at`.
- A sync whose declarations name a model of another supplier can repeat a name among that supplier's models.
  With distinct ids a successful sync keeps the catalogue invariant exactly when the declared names are apart
  from each other and from those of undeclared models (`CatalogueSync.SyncKeepsInvariantIff`, failing in
  `CatalogueSync.ForeignDeclarationRepeatsName`); ids of its own are enough (`CatalogueSync.SyncKeepsInvariant`).
- A repeated enqueue returns the existing row exactly when it reads the table the first call wrote
  (`Enqueue.LaterCallsReplay`, `Enqueue.LaterScriptsReplay`). A job call takes its capability as an argument, so
  a job and a text call can share a key; the second one then returns no row, and a script session opened on the
  job's record can never be replayed (`Enqueue.JobThenText`, `Enqueue.TextThenJob`).
- A first bundle materialisation can fail after its rows are committed: a damaged file at one of the two object
  ids makes the response fail, then and ever after while the file stays (`Bundle.LaterMaterializationsIff`,
  reached in `Bundle.DamagedFileStrands`).
- A failed export cleans up after itself except in two cases (`BundleExport.Exporter.AtomicSuccessfulBundleExport`).
  The provenance is built after the staging directory is made and before the `try` block
  (`BundleExport.ProvenanceFailureLeavesStaging`), and the block handles `Exception` only, so that an interrupt such
  as `KeyboardInterrupt` leaves the staging directory or, if the commit was reached, the destination without a
  committed record (`BundleExport.InterruptedCommitLeavesDestination`).
- `commit_accepted_submission` on a job that is already submitted leaves the two provider ids as they were, so
  they agree exactly when they agreed before (`Submission.CommitAcceptedOutcome`; they differ in
  `Submission.CommitLeavesDifferentIds`).

Equality of JSON values in this project is equality up to the order of dict keys, with true and 1 distinct.
Python's `==` identifies those two: `{"a": True} == {"a": 1}`, and the two dicts have different dumps and
digests (`CanonicalJson.EqualDictsDumpApart`). The place where the modelled code compares decoded dicts
with `==` is the manifest check, and a built manifest holds no boolean and no number, so there the two
equalities agree (`CanonicalJson.PythonEqualOnText`).

## Model

| member | source | states |
|---|---|---|
| ScriptRuns.ReplayIsExact | ai_drama_web/store.py:2974-3006 | on a sound log, appending at a stored sequence succeeds exactly when type and payload (as JSON values) equal the stored event, and then nothing changes; anything else is a sequence conflict |
| ScriptRuns.GapIsRefused | ai_drama_web/store.py:3007-3059 | a sequence below 1 or past the next one is refused; the next one is recorded |
| ScriptRuns.RecoveredKeepsSound | ai_drama_web/store.py:3108-3209 | recovering one session keeps its log gapless and counted, leaves it not pending, keeps its events and adds at most one |
| ScriptRecovery.CommitKeepsDestination | ai_drama_web/store.py:3108-3209 | no transaction recovery commits changes the state that an uninterrupted recovery reaches |
| ScriptRecovery.ChainKeepsDestination | ai_drama_web/store.py:3108-3209 | the same for any number of such transactions, over any number of crashes and restarts |
| ScriptRecovery.RecoveryIsRestartable | ai_drama_web/store.py:3108-3209 | after any chain of recovery transactions, no run is pending if and only if the state is the one of a single uninterrupted recovery |
| ScriptRecovery.RecoveryProgresses | ai_drama_web/store.py:3108-3209 | while a run is pending some recovery transaction still changes the state |
| ScriptRecovery.RecoveryOutcome | ai_drama_web/store.py:3108-3209 | afterwards nothing is pending, logs are sound, each run gained at most one event, and recovering again changes nothing and counts no unknown outcome, whatever the runtime tables then say |
| ScriptStore.ScriptRunStore.AppendEvent | ai_drama_web/store.py:2974-3059 | the method leaves the appended state and one commit, or raises with nothing changed |
| ScriptStore.ScriptRunStore.TransitionRun | ai_drama_web/store.py:3072-3106 | the guarded status update, or a status conflict with nothing changed |
| ScriptStore.ScriptRunStore.ClaimRun | ai_drama_web/store.py:2962-2972 | a claim succeeds exactly on a prepared run, which is then submitting |
| ScriptStore.ScriptRunStore.ResolveFinalizing | ai_drama_web/store.py:3108-3173 | the first loop recovers every finalizing run whose outcome the runtime tables know and touches no other, by recovery transactions only |
| ScriptStore.ScriptRunStore.NoteUnresolved | ai_drama_web/store.py:3174-3198 | the second loop gives every run still pending a failed event unless it has one |
| ScriptStore.ScriptRunStore.RecoverRuns | ai_drama_web/store.py:3108-3209 | the two loops and the closing update reach the recovered state, count the unknown outcomes, and every commit on the way is a recovery transaction |
| ScriptLaw.AppendByTables | ai_drama_web/store.py:2974-3059 | every outcome of an append on sound logs, in the order of the tests: an event type outside the five is refused, a stored sequence is replayed on the same type and an equal payload, an unknown run is not found, the next sequence stores the event and counts the text of a text_delta, any other conflicts |
| ScriptLaw.CharacterCountIsAssembledText | ai_drama_web/store.py:3007-3059 | the character count of a sound session is the length of the text that its text_delta events stream, put together in sequence order |
| ScriptLaw.TransitionByTables | ai_drama_web/store.py:3072-3106 | a transition is granted exactly on a stored run in an expected status, and writes the status, revision id, error code and evidence of that run and nothing else |
| ScriptLaw.RecoveryByTables | ai_drama_web/store.py:3108-3209 | what recovery leaves of every run, column by column: a finalizing run whose runtime run succeeded and has a revision is completed with the newest one, one whose runtime run failed under one of the three codes is failed with its error code (or the status), every other pending one has an unknown outcome, each with its event one past the last unless one is stored, and the rest stay |
| ScriptLaw.UnknownByTables | ai_drama_web/store.py:3174-3209 | the runs counted as unknown are the pending ones that are not finalizing with a published or failed runtime run |
| EventReader.HistoryKeepsLogs | ai_drama_web/store.py:2863-3209 | in every reachable state each log is exactly 1..last_sequence with the right character count, and later logs extend earlier ones |
| EventReader.CreationByTables | ai_drama_web/store.py:2863-2972 | a run is created once, prepared, with an empty log; a claim moves a prepared run to submitting and changes nothing else |
| EventReader.EventStream | ai_drama_web/routers/scripts.py:131-160 | for any polls of a growing log the session emits exactly the events from its cursor up to where it stands, and returns only on a terminal status |
| EventReader.SliceContiguous | ai_drama_web/store.py:3061-3070 | what a query returns has consecutive sequences starting just after the cursor |
| EventReader.PollsOfHistoryAreObserved | ai_drama_web/routers/scripts.py:131-160 | polls made at any times of any history are polls of a growing log, whatever status each poll reads |
| EventReader.ResumedReadersGivePrefix | ai_drama_web/routers/scripts.py:131-160 | whatever a client keeps over any number of sessions polling one history, the first from 0 and each later one from the last id kept, is a prefix of the run's log ending at that id |
| Submission.HistoryIsTablePath | ai_drama_web/store.py:36-45 | in every history each status change is in the transition table and no job disappears |
| Submission.TerminalIsFinal | ai_drama_web/store.py:36-45 | completed, failed and cancelled are never left |
| Submission.SubmittingEnteredOnce | ai_drama_web/store.py:3238-3396 | a job enters submitting at most once in a history |
| Submission.ClaimSucceedsOnce | ai_drama_web/store.py:3353-3396 | of all claims of a job in a history at most one succeeds |
| Submission.ProviderJobChangesOnce | ai_drama_web/store.py:3295-3422 | a job's provider id changes at most once in a history |
| Submission.CompletedOnce | ai_drama_web/store.py:3476-3528 | a job is completed with a result at most once, and that step adds exactly the one result |
| Submission.PreparedIsNotReentered | ai_drama_web/store.py:3327-3351 | an attempt that has left prepared at some point of a history is out of it, and still stored, at every later point |
| Submission.CommitAcceptedOutcome | ai_drama_web/store.py:3398-3422 | the commit succeeds exactly on an accepted attempt with a provider id whose job is submitting or submitted; afterwards submitted and committed, with equal provider ids exactly when the job was submitting or already agreed |
| Submission.CommitLeavesDifferentIds | ai_drama_web/store.py:3398-3422 | five steps from the empty store end with a successful commit and two different provider ids |
| SubmissionLaw.TransitionByTables | ai_drama_web/store.py:3238-3293 | a transition succeeds if and only if the job is stored and the two statuses are one of the eleven pairs; the status is then the next one, each optional column the given value or the old one, and no other row changes |
| SubmissionLaw.AttachByTables | ai_drama_web/store.py:3295-3317 | attaching needs a submitting job, which becomes submitted with the provider id and the response id |
| SubmissionLaw.CreationByTables | ai_drama_web/store.py:3327-3340 | what a created job, an enqueued job and a prepared attempt start with, and when each is refused |
| SubmissionLaw.RecordByTables | ai_drama_web/store.py:3342-3351 | recording replaces state, provider id and evidence of a stored attempt, refuses prepared and leaves every other row |
| SubmissionLaw.ClaimByTables | ai_drama_web/store.py:3353-3396 | a claim succeeds exactly on a queued job whose attempt is prepared, and moves both to submitting |
| SubmissionLaw.CommitByTables | ai_drama_web/store.py:3398-3422 | which columns a commit writes: the attempt is committed, a submitting job takes the provider id and the evidence, a submitted one keeps its columns |
| SubmissionLaw.ResultsByTables | ai_drama_web/store.py:3439-3528 | a result needs a stored job and an unused id; completing also needs a submitted or polling job, and names the result in it |
| SubmissionStore.JobStore.TransitionGenerationJob | ai_drama_web/store.py:3238-3293 | the table transition with its optional columns, no row, or a refusal with nothing changed |
| SubmissionStore.JobStore.AttachGenerationProviderJob | ai_drama_web/store.py:3295-3317 | a submitting job becomes submitted with the provider id, and no other job changes |
| SubmissionStore.JobStore.PrepareSubmissionAttempt | ai_drama_web/store.py:3327-3340 | an attempt is created once and an existing one is left as it is |
| SubmissionStore.JobStore.RecordSubmissionAttempt | ai_drama_web/store.py:3342-3351 | the attempt's state, provider id and evidence are replaced, never by prepared |
| SubmissionStore.JobStore.ClaimGenerationSubmission | ai_drama_web/store.py:3353-3396 | both guarded updates or none |
| SubmissionStore.JobStore.CommitAcceptedSubmission | ai_drama_web/store.py:3398-3422 | job and attempt change together or not at all |
| SubmissionStore.JobStore.CompleteGenerationJobWithResult | ai_drama_web/store.py:3476-3528 | the result row and the completed job appear together or not at all |
| Enqueue.HistoryKeepsInvariant | ai_drama_web/store.py:2367-2841 | in every history each idempotency record names a stored job or text run with its request hash, there are as many records as jobs and text runs, and each job has its attempt |
| Enqueue.FreshIdsKeepTablesDisjoint | ai_drama_web/store.py:2367-2841 | with generated ids new to both tables no id is ever both a job and a text run |
| Enqueue.RecordHasCreator | ai_drama_web/store.py:2367-2841 | every key with a record has a creating call in the history |
| Enqueue.CreatorIsRemembered | ai_drama_web/store.py:2367-2841 | after the creating call of any of the three methods its key names the row it returned and its hash for ever, and that row stays in the creator's table |
| Enqueue.LaterCallsAddNothing | ai_drama_web/store.py:2367-2841 | a later call with the key and another hash is refused with nothing changed, and no later call with the key adds a job, text run, record or snapshot |
| Enqueue.LaterCallsReplay | ai_drama_web/store.py:2387-2395 | a later job or text call with the key and the hash changes nothing, and returns the one existing row if and only if it reads the table the creating call wrote |
| Enqueue.ScriptBindsExistingRun | ai_drama_web/store.py:2711-2841 | a script call that succeeds on an existing record binds its session to the one existing row, and returns that row if and only if a text method made the record |
| Enqueue.LaterScriptsReplay | ai_drama_web/store.py:2711-2841 | a successful script call repeated at any later time changes nothing and returns the same session and text run if and only if a text method made the record; otherwise it raises |
| Enqueue.SessionReplayAddsNothing | ai_drama_web/store.py:2782-2813 | when a session with the key exists the call adds nothing; it returns that session and its text run exactly when the record, the text run and the session match, and raises otherwise |
| Enqueue.JobThenText | ai_drama_web/store.py:2655-2659 | on a record made by a job a text call returns no row, and a script call opens a session whose replay raises |
| Enqueue.TextThenJob | ai_drama_web/store.py:2391-2395 | on a record made by a text call a job call returns no row |
| EnqueueLaw.JobByTables | ai_drama_web/store.py:2367-2429 | every outcome of a job call from the stored record and rows: replay, refusal of another hash, or all rows together |
| EnqueueLaw.TextByTables | ai_drama_web/store.py:2636-2678 | the same for a text call |
| EnqueueLaw.ScriptByTables | ai_drama_web/store.py:2680-2841 | a script call fails like a text call or hands its text run to the session half, which replays a session whose project, chapter, request, text run and hash agree, refuses any other under the key, and otherwise stores a new one |
| EnqueueLaw.KeyByTables | ai_drama_web/store.py:2431-2439 | the record of a call is stored under its supplier, its capability (text for the two text methods) and its key |
| EnqueueStore.QueueStore.EnqueueGenerationJob | ai_drama_web/store.py:2367-2429 | snapshot, job, attempt and record together; a replay, answered with the job row under the recorded id if there is one; or an error with nothing changed |
| EnqueueStore.QueueStore.EnqueueTextRun | ai_drama_web/store.py:2636-2678 | snapshot, text run and record together; a replay, answered with the text run under the recorded id if there is one; or an error with nothing changed |
| EnqueueStore.QueueStore.EnqueueScriptGeneration | ai_drama_web/store.py:2680-2841 | the supplier rows and the session together, returned with the text run; a conflict found after the supplier inserts undoes them |
| Catalogue.EffectKeepsInvariant | ai_drama_web/store.py:868-1488 | every successful call keeps: names of enabled models unique per supplier and capability, each model's current revision its own, revision numbers never repeated, nothing naming a deleted model or revision |
| Catalogue.ChangeBumpsOnce | ai_drama_web/store.py:868-1392 | a call that changes a model raises its supplier's catalogue revision by exactly one and no other; one that changes none raises none |
| CatalogueLaw.NameTakenByTables | ai_drama_web/store.py:1059-1072 | a name is taken exactly when another enabled model of the supplier has a current revision with the capability and name |
| CatalogueLaw.NamesUniqueByTables | ai_drama_web/store.py:1059-1072 | the invariant in the terms of the tables: no two enabled models of a supplier share capability and name |
| CatalogueLaw.BindingCountByTables | ai_drama_web/store.py:1219-1229 | the reference count is the number of projects whose defaults name the model and of overrides that name it |
| CatalogueLaw.SnapshotCountByTables | ai_drama_web/store.py:1212-1217 | the history count is zero exactly when no snapshot names the model |
| CatalogueLaw.CreateByTables | ai_drama_web/store.py:868-937 | when a creation is refused and with which error, and the two rows and the revision it leaves |
| CatalogueLaw.CreateOnceByTables | ai_drama_web/store.py:939-1027 | a stored request key answers for the same request only and changes nothing; a new one creates and stores the key |
| CatalogueLaw.ReviseByTables | ai_drama_web/store.py:1074-1155 | the tests of a revision in order with their errors, and the numbered row it leaves current |
| CatalogueLaw.EnableByTables | ai_drama_web/store.py:1157-1197 | enabling needs the two expected revisions and a current revision whose name is free |
| CatalogueLaw.DisableByTables | ai_drama_web/store.py:1157-1197 | disabling needs the two expected revisions only |
| CatalogueLaw.DeleteByTables | ai_drama_web/store.py:1231-1271 | a model without referers, snapshots and test runs goes with its revisions and requests, and nothing else does |
| CatalogueLaw.RemoveByTables | ai_drama_web/store.py:1273-1336 | which of keep, archive, delete and refuse a removal takes |
| CatalogueLaw.ArchiveByTables | ai_drama_web/store.py:1338-1392 | archiving disables and marks the model once, under its conditions |
| CatalogueLaw.RebindByTables | ai_drama_web/store.py:1411-1488 | every model must fit its place and the revision be the expected one; the overrides of the project are then exactly the given ones and those of other projects stay |
| CatalogueLaw.RecordsByTables | ai_drama_web/store.py:2367-2508 | a snapshot needs a revision of its model and is kept once stored |
| CatalogueSync.SyncKeepsInvariant | ai_drama_web/store.py:594-728 | a successful sync keeps the catalogue invariant when no declared id belongs to another supplier |
| CatalogueSync.SyncKeepsInvariantIff | ai_drama_web/store.py:594-728 | with distinct ids, whoever owns them, a successful sync keeps the catalogue invariant if and only if no two declarations give one owner the same name and no undeclared model holds a declared name |
| CatalogueSync.ForeignDeclarationRepeatsName | ai_drama_web/store.py:594-728 | a supplier renames another supplier's model by declaring it, and leaves two enabled models of that supplier under one name |
| CatalogueSync.SyncIsExactIff | ai_drama_web/store.py:594-728 | a successful sync leaves exactly the declared ids enabled and built in for the supplier exactly when no declared id belonged to another supplier and no archived built-in outside the manifest was enabled |
| CatalogueSync.SyncInstallsDefinitions | ai_drama_web/store.py:594-709 | with distinct ids every declared definition is the current one of its enabled model |
| CatalogueSync.SyncFrame | ai_drama_web/store.py:594-728 | overlays, old revision rows and every other table stay as they were |
| CatalogueSync.SyncBumpsAtMostOnce | ai_drama_web/store.py:594-728 | either nothing changed or the catalogue revision rose by exactly one |
| CatalogueSync.SyncIsIdempotent | ai_drama_web/store.py:594-728 | repeating the sync with any fresh revision ids changes nothing |
| CatalogueSync.ForeignModelEscapesSync | ai_drama_web/store.py:594-728 | a supplier that declares another supplier's model syncs successfully and has no such model of its own |
| CatalogueSync.ArchivedModelEscapesSync | ai_drama_web/store.py:1157-1197 | archive, enable again and sync without the model: a sync that succeeds and leaves an undeclared model enabled |
| CatalogueLaw.RoundByTables | ai_drama_web/store.py:594-709 | what one declaration does: the refusals in order with their errors, a new built-in model, nothing, or a new enabled revision |
| CatalogueLaw.SyncByTables | ai_drama_web/store.py:710-728 | after the rounds exactly the enabled, unarchived, undeclared built-ins of the supplier are disabled, and its catalogue revision rises by one if anything changed |
| CatalogueLaw.SyncFailsByRounds | ai_drama_web/store.py:594-709 | a sync fails with the error of its first failing round |
| CatalogueStore.HistoryKeepsInvariant | ai_drama_web/store.py:594-1488 | the catalogue invariant holds after every history of all calls and of syncs that declare their own ids or names that are apart |
| CatalogueStore.SupplierStore.CreateSupplierModel | ai_drama_web/store.py:868-937 | the model, its first revision and the bumped catalogue, or an error with nothing changed |
| CatalogueStore.SupplierStore.ReviseSupplierModel | ai_drama_web/store.py:1074-1155 | the new current revision under matching expected revisions and reference count, or an error with nothing changed |
| CatalogueStore.SupplierStore.SetSupplierModelEnabled | ai_drama_web/store.py:1157-1197 | the flag and revision change, or a conflict found after the update rolls it back |
| CatalogueStore.SupplierStore.RemoveSupplierModel | ai_drama_web/store.py:1273-1336 | reject while bound, archive while in a snapshot, otherwise delete with its revisions and requests |
| CatalogueStore.SupplierStore.ArchiveSupplierModel | ai_drama_web/store.py:1338-1392 | disabled and archived once; an archived model is returned unchanged |
| CatalogueStore.SupplierStore.ReplaceProjectModelBindings | ai_drama_web/store.py:1411-1488 | defaults and all overrides of the project replaced under the expected revision, or nothing |
| CatalogueStore.SupplierStore.SyncManifestModels | ai_drama_web/store.py:594-728 | the method reaches the synced state, or restores models and revisions when a round fails |
| CatalogueStore.SupplierStore.RetireUndeclared | ai_drama_web/store.py:710-720 | the loop disables exactly the listed, enabled, undeclared built-ins of the supplier and reports whether there was one |
| Lineage.StatusAppended | ai_drama_runtime/store.py:830-881 | what one more record does to the status that the log assigns to any revision |
| Lineage.RecordingKeepsInvariant | ai_drama_runtime/store.py:830-868 | a record appended together with its row updates keeps the log deciding every status |
| Lineage.ApprovingKeepsInvariant | ai_drama_runtime/store.py:830-850 | an approval keeps the lineage invariant |
| Lineage.RejectingKeepsInvariant | ai_drama_runtime/store.py:852-868 | a rejection keeps the lineage invariant |
| Lineage.InsertedKeepsInvariant | ai_drama_runtime/store.py:734-811 | an insert keeps numbers 1..n per artifact and supersedes links descending |
| Lineage.OneApprovedPerArtifact | ai_drama_runtime/store.py:1238-1244 | an artifact never has two approved revisions |
| Lineage.ApprovingByTables | ai_drama_runtime/store.py:830-850 | an approval needs a stored revision and an unused record id; it approves that revision, supersedes the other approved ones of the artifact, appends one record and changes nothing else |
| Lineage.RejectingByTables | ai_drama_runtime/store.py:852-868 | a rejection changes the status of that revision only and appends one record |
| LineageStore.RuntimeStore.InsertRevision | ai_drama_runtime/store.py:734-763 | the new revision takes the next number and the newest (or the edited) revision as predecessor; a duplicate id changes nothing |
| LineageStore.RuntimeStore.ApproveInTransaction | ai_drama_runtime/store.py:830-850 | supersede, approve and log together; a failed log insert rolls both updates back |
| LineageStore.RuntimeStore.RecordRejection | ai_drama_runtime/store.py:852-868 | reject and log together |
| LineageStore.HistoryKeepsInvariant | ai_drama_runtime/store.py:734-881 | in every reachable state the log decides every approval status, numbers run 1..n per artifact and supersedes links descend within the artifact |
| Freshness.FreshnessStatusOf | ai_drama_runtime/validators.py:78-101 | the loop with its recursion terminates on every graph and returns the status of the recursive definition |
| Freshness.FreshnessDecidesSoundness | ai_drama_runtime/validators.py:78-106 | FRESH if and only if everything reachable exists, every reachable edge carries the parent's hash, a current approved parent and an existing record when one is named, and no cycle is reachable |
| Freshness.EdgeStatusByTables | ai_drama_runtime/validators.py:87-98 | what the check says of one dependency row, from the tables: missing parent, changed hash or other current approval, missing record, in this order |
| Freshness.FirstBadRowDecides | ai_drama_runtime/validators.py:87-101 | the first row that is not in order decides the status: its own fault, or else the status of its parent |
| Freshness.FaultIsReachable | ai_drama_runtime/validators.py:78-101 | every other status is justified by a path whose end shows a fault of that kind |
| Freshness.ApprovalStalesDependents | ai_drama_runtime/store.py:830-850 | approving another revision of a parent's artifact makes everything that depends on that parent, at any distance, not FRESH |
| Freshness.RejectionStalesDependents | ai_drama_runtime/store.py:852-868 | so does rejecting the parent |
| Freshness.ApprovalKeepsUnrelated | ai_drama_runtime/validators.py:87-101 | the exact status of a revision with no path into the approved artifact is unchanged |
| Bundle.ManifestReadsBack | ai_drama_runtime/services.py:236-270 | decoding a built manifest gives an equal dict |
| Bundle.CheckPassesIff | ai_drama_runtime/services.py:305-356 | the integrity check passes if and only if the stored outputs are exactly what renderer and manifest builder produce, byte for byte, and it reports the bundle hash |
| Bundle.MaterializedPasses | ai_drama_runtime/services.py:411-447 | a materialisation that succeeds leaves the check passing and reports the same hash |
| Bundle.FirstMaterializationSucceedsIff | ai_drama_runtime/services.py:411-447 | a first materialisation succeeds exactly when the content renders and no damaged file sits at one of the two object ids |
| Bundle.LaterMaterializationsIff | ai_drama_runtime/services.py:411-447 | once the content renders the rows are committed, and in every later state materialising again changes nothing and succeeds if and only if no damaged file sat at one of the two object ids |
| Bundle.DamagedFileStrands | ai_drama_runtime/services.py:432-447 | for every stored text that decodes and renders to another text: with a damaged file at the rendered object's id the call raises and its two rows stay |
| Bundle.RematerializeAddsNothing | ai_drama_runtime/services.py:411-420 | materialising again changes nothing and reports the same hash |
| Bundle.Phase3IsRefused | ai_drama_runtime/store.py:913-933 | on a revision that has a manifest row the phase-3 insert collides and is refused |
| Bundle.StepKeepsBundle | ai_drama_runtime/store.py:897-933 | no step of any writer, and no collection of unreferenced objects, breaks a complete bundle |
| Bundle.ApprovedBundlesKeepPassing | ai_drama_runtime/services.py:1657-1679 | in every history a canonical storyboard once approved passes the check in every later state |
| BundleLaw.RenderingByTables | ai_drama_runtime/services.py:272-280 | when a revision has a rendering: its stored content hashes to its id, decodes, and renders to the text |
| BundleLaw.WrittenByTables | ai_drama_runtime/store.py:582-591 | writing stores new bytes under their hash and leaves an existing file as it is |
| BundleLaw.WritersByTables | ai_drama_runtime/store.py:582-591 | a new revision starts without outputs, a written object is stored under its hash, and a collection removes exactly the listed objects that no revision names |
| BundleLaw.MaterializeByTables | ai_drama_runtime/services.py:411-447 | which branch a materialisation takes and exactly which objects and rows it stores |
| BundleLaw.CheckByTables | ai_drama_runtime/services.py:305-356 | which error the check reports, in its order, and that it passes exactly on the complete bundle |
| BundleLaw.ApproveByTables | ai_drama_runtime/services.py:1657-1679 | an approval is blocked by the other guards first, then by the bundle under the code for its fault |
| BundleLaw.RowsCompleteByTables | ai_drama_runtime/store.py:913-931 | the phase-3 rows are complete exactly when there is one row of the revision for each logical type |
| BundleLaw.Phase3ByTables | ai_drama_runtime/store.py:913-955 | an incomplete set or a type that is stored already is refused; otherwise every row is stored under its type and nothing else changes |
| DigestText.OutputPrinted | ai_drama_runtime/services.py:236-270 | the text of the output entry of a manifest, key by key in printed order |
| DigestText.PreimagePrinted | ai_drama_runtime/services.py:236-270 | the text the bundle hash digests, with each of the two hashes under its own key |
| DigestText.ManifestPrinted | ai_drama_runtime/services.py:236-270 | the text of the stored manifest, key by key in printed order |
| BundleStore.RuntimeService.CheckStoryboardBundleIntegrity | ai_drama_runtime/services.py:305-356 | the checks in order return the specified result or error |
| BundleStore.RuntimeService.MaterializeStoryboardBundle | ai_drama_runtime/services.py:411-447 | the method reaches the specified state and response on every branch |
| BundleStore.RuntimeService.InsertRevisionOutputs | ai_drama_runtime/store.py:897-911 | the rows go in one by one; a collision leaves none of them |
| BundleStore.RuntimeService.InsertPhase3RevisionOutputs | ai_drama_runtime/store.py:913-933 | all seven rows of the revision or an error with nothing changed |
| BundleStore.RuntimeService.WriteBytesObject | ai_drama_runtime/store.py:582-591 | an object is written under its hash, and an existing file is left alone |
| BundleExport.Exporter.AtomicSuccessfulBundleExport | ai_drama_runtime/services.py:496-560 | it succeeds exactly when no point raises and the disk returns what was written: then one record and a destination with the four exact files; otherwise no record is committed, and nothing is left behind except the staging directory after an exception just before the try block, and what an interrupt inside it leaves: the staging directory, or the destination with its files exactly when the commit was reached; it also states exactly when the error is an existing destination, an exception before the try block or a file that reads back changed, and when the provenance object is stored |
| BundleExport.Exporter.WriteBundleExportFiles | ai_drama_runtime/services.py:473-491 | it returns exactly when every file could be read, written and read back unchanged, and the staging directory then holds the exact source bytes |
| BundleExport.Exporter.CleanUp | ai_drama_runtime/services.py:538-545 | after an exception no transaction is open and neither the staging directory nor the destination remains |
| BundleExport.ProvenanceFailureLeavesStaging | ai_drama_runtime/services.py:500-514 | an export whose provenance cannot be built raises and leaves an empty staging directory |
| BundleExport.InterruptedCommitLeavesDestination | ai_drama_runtime/services.py:534-545 | an interrupt at the commit of any readable bundle's export leaves the destination with its four files and no committed record |
| BundleExport.ExportedFilesAreTheBundle | ai_drama_runtime/services.py:449-491 | the exported files of a checked bundle are the canonical text, its rendering and the manifest built from both |
| BundleLaw.ExportByTables | ai_drama_runtime/services.py:499-534 | the columns of an export record, the digest of the printed provenance among them, and the name of the staging directory |
| DigestText.ProvenancePrinted | ai_drama_runtime/services.py:454-471 | the text of the exported provenance, its fourteen keys in printed order |
| ObjectInventory.InventoryHashDecides | ai_drama_web/operations/object_store_maintenance.py:109-128 | two inventories have one hash, the digest of their sorted listing printed as JSON, if and only if every hashed column of every object and the missing references are equal |
| ObjectInventory.BuildInventory | ai_drama_web/operations/object_store_maintenance.py:73-128 | the loop over the sorted files builds the inventory of every object with its hash, users, corruption and candidacy, the missing references and the digest |
| ObjectInventory.InventoryByTables | ai_drama_web/operations/object_store_maintenance.py:73-109 | the inventory lists exactly the stored objects with their columns; its candidates are exactly the unreferenced, uncorrupted files of a known kind that are at least the grace period old, and the missing ids exactly the referenced ones that are not stored |
| ObjectInventory.AgeInWholeSeconds | ai_drama_web/operations/object_store_maintenance.py:86 | an age is the time since modification in whole seconds, rounded down and never negative |
| DigestText.EntryPrinted | ai_drama_web/operations/object_store_maintenance.py:109-127 | the text of one entry of the digested listing |
| DigestText.InventoryPrinted | ai_drama_web/operations/object_store_maintenance.py:109-128 | the digested text: one entry for each object in the order of the ids, then the missing ids |
| KeyOrder.ListedIdsRise | ai_drama_web/operations/object_store_maintenance.py:78-109 | sorted(ids) lists exactly the ids, each once, in rising code-point order |
| GarbageCollection.VerifyBackupManifest | ai_drama_web/operations/backup_restore.py:163-197 | it returns exactly when the backup is verified: files recorded once each and matching, payload consistent, inventory hash equal; otherwise with the error of the first check that fails |
| GarbageCollection.RecordFaultByTables | ai_drama_web/operations/backup_restore.py:180-191 | what one file record is reported for: size or digest first, then mode |
| GarbageCollection.BackupVerifiedByTables | ai_drama_web/operations/backup_restore.py:163-197 | a backup is verified exactly when schema and status are right, each payload file is recorded once with its size, digest and mode, no reference is lost or corrupt, credentials are in order and the recorded hash is that of the payload listing |
| GarbageCollection.ValidatePayload | ai_drama_web/operations/backup_restore.py:338-356 | it returns the payload's own inventory hash exactly when no reference is missing, no referenced object corrupt and credentials are in order |
| GarbageCollection.PayloadConsistentByTables | ai_drama_web/operations/backup_restore.py:338-356 | a payload is consistent exactly when every reference is stored, no referenced object is corrupt and the credentials are in order |
| GarbageCollection.CandidateIsBackedUp | ai_drama_web/operations/object_store_maintenance.py:174-210 | when the guards pass every candidate is unreferenced, uncorrupted and in the backup payload with identical bytes under a record of its hash |
| GarbageCollection.CandidatesByTables | ai_drama_web/operations/object_store_maintenance.py:86-95 | an object is a candidate if and only if it is stored, has no referencing column, its bytes hash to its id, its kind is known, and its age in whole seconds is at least the grace period |
| GarbageCollection.GuardsByTables | ai_drama_web/operations/object_store_maintenance.py:131-195 | everything that must be in order before anything is deleted |
| GarbageCollection.CollectionLosesNothing | ai_drama_web/operations/object_store_maintenance.py:174-210 | after deletion every reference still resolves to its bytes and every object is still stored or in the backup byte for byte |
| GarbageCollection.DataRoot.Apply | ai_drama_web/operations/object_store_maintenance.py:174-210 | apply succeeds exactly when all guards pass; an object is then deleted if and only if it is stored, unreferenced, uncorrupted, of a known kind and at least the grace period old in whole seconds, and the report lists exactly those; otherwise nothing is deleted |
| JsonRoundTrip.TextRoundTrip | ai_drama_runtime/storyboard_canonical.py:35-71 | the decoder reads back exactly the value the printer wrote, with ensure_ascii on or off |
| JsonTextLaw.EscapeTable | ai_drama_runtime/storyboard_canonical.py:69 | which characters are escaped and how, with ensure_ascii on and off |
| JsonTextLaw.WordsPrinted | ai_drama_runtime/storyboard_canonical.py:69 | the three words, the brackets and the quotes of a printed value |
| JsonTextLaw.PlainTextVerbatim | ai_drama_runtime/storyboard_canonical.py:69 | without ensure_ascii a text that needs no escape is printed verbatim |
| JsonTextLaw.DumpsAsciiIsAscii | ai_drama_web/operations/object_store_maintenance.py:121-127 | with ensure_ascii nothing but ASCII is printed |
| JsonTextLaw.OneMoreItemPrinted | ai_drama_runtime/storyboard_canonical.py:69 | items are separated by a bare comma |
| JsonTextLaw.OneMoreFieldPrinted | ai_drama_runtime/storyboard_canonical.py:69 | fields are separated by a bare comma and hold a bare colon |
| JsonTextLaw.PrintedInteger | ai_drama_runtime/storyboard_canonical.py:69 | numbers carry a sign exactly when negative and no superfluous zero |
| JsonTextLaw.HexValueTable | ai_drama_runtime/storyboard_canonical.py:41 | hexadecimal digits of both cases are read, and nothing else |
| JsonTextLaw.SimpleEscapeTable | ai_drama_runtime/storyboard_canonical.py:41 | the eight letters that may follow a backslash besides u |
| JsonSpacing.SpacedTextRead | ai_drama_runtime/storyboard_canonical.py:41 | white space of the four kinds may stand before, between and after any two tokens of a printed value, which is still read back |
| JsonSpacing.UnreadTextRefused | ai_drama_runtime/storyboard_canonical.py:41 | text after the value is refused |
| JsonSpacing.StrangeStartRefused | ai_drama_runtime/storyboard_canonical.py:41 | a text whose first character opens no value is refused |
| JsonSpacing.RepeatedKeyRefused | ai_drama_runtime/storyboard_canonical.py:26-32 | a dict that repeats a key is refused |
| JsonSpacing.NonFiniteRefused | ai_drama_runtime/storyboard_canonical.py:48-49 | the constants NaN, Infinity and -Infinity are refused |
| JsonSpacing.ControlCharacterRefused | ai_drama_runtime/storyboard_canonical.py:41 | a control character inside a string is refused |
| CanonicalJson.CanonDecidesSameValue | ai_drama_runtime/storyboard_canonical.py:66-69 | two values have one key-sorted form exactly when they are equal JSON values, true and 1 being different |
| CanonicalJson.NormalizeReachesNormal | ai_drama_runtime/storyboard_canonical.py:52-63 | normalising an accepted value puts every string and key in NFC with no empty text |
| CanonicalJson.NormalIsFixed | ai_drama_runtime/storyboard_canonical.py:52-63 | a normal value is not changed by normalisation |
| CanonicalJson.ParseAfterSerialize | ai_drama_runtime/storyboard_canonical.py:35-72 | parse(serialize(x)) equals normalize(x) |
| CanonicalJson.SerializeAfterParse | ai_drama_runtime/storyboard_canonical.py:35-72 | serialize(parse(serialize(x))) equals serialize(x) |
| CanonicalJson.SerializeDecidesSameNormalForm | ai_drama_runtime/storyboard_canonical.py:66-72 | two accepted values serialise alike if and only if their normal forms are equal |
| CanonicalJson.DumpsDecidesSameValue | ai_drama_web/store.py:3621-3622 | sorted compact dumps of two payloads agree if and only if the payloads are equal JSON values, true and 1 being different |
| CanonicalJson.DumpsAsciiDecidesSameValue | ai_drama_web/operations/object_store_maintenance.py:121-127 | the same with non-ASCII characters escaped |
| CanonicalJson.PythonEqualOnText | ai_drama_runtime/services.py:343-349 | against a value without booleans and numbers, such as a built manifest, Python's == is equality of JSON values |
| CanonicalJson.PythonEqualScalars | ai_drama_runtime/services.py:343-349 | Python's == on words, numbers and texts: only True with 1 and False with 0 are identified across kinds |
| CanonicalJson.EqualDictsDumpApart | ai_drama_web/store.py:3621-3622 | two dicts that Python calls equal, with True and 1 under a key, have different dumps |
| KeyOrder.PrintedKeysRise | ai_drama_runtime/storyboard_canonical.py:69 | in what is printed the keys of every dict at every depth rise by code point, a proper prefix first |
| KeyOrder.RefusedIffEmptyText | ai_drama_runtime/storyboard_canonical.py:52-56 | serialising raises exactly when some string value at some depth is empty |
| KeyOrder.LastValueWins | ai_drama_runtime/storyboard_canonical.py:59-60 | of the fields whose keys have one normal form the value of the last is kept |
| KeyOrder.NormalizedKeys | ai_drama_runtime/storyboard_canonical.py:59-60 | the keys of a normalised dict are exactly the normal forms of its keys |
| KeyOrder.NormalizedParts | ai_drama_runtime/storyboard_canonical.py:52-63 | texts become their normal form, lists keep their places, everything else stays |
| JsonSchema.ConformsApplies | ai_drama_runtime/storyboard_canonical.py:80-111 | a value of a required shape keeps it under normalisation and under key sorting |
| Storyboard.ValidateScenes | ai_drama_runtime/storyboard_canonical.py:134-163 | the loop over ids seen and last order reports the code of the first faulty scene |
| Storyboard.ScenesValidIff | ai_drama_runtime/storyboard_canonical.py:134-163 | no fault if and only if every scene conforms, ids match the pattern and differ, and orders rise strictly from at least 1 |
| ValidatorLaw.PatternIff | ai_drama_runtime/storyboard_canonical.py:15-16 | the id pattern by code point: the prefix, a capital or digit, then capitals, digits, underscores and hyphens, and at most one line feed at the end |
| ValidatorLaw.ScenesAcceptedByTables | ai_drama_runtime/storyboard_canonical.py:134-163 | scenes are accepted exactly when each has the eight keys with values of their kinds, a new id of the pattern and an order above those before it |
| ValidatorLaw.SceneFaultByTables | ai_drama_runtime/storyboard_canonical.py:134-163 | the code reported for the first scene that does not stand |
| SchemaLaw.VisualRead | ai_drama_runtime/storyboard_canonical.py:228-234 | the keys and kinds of a visual composition |
| SchemaLaw.PositionRead | ai_drama_runtime/storyboard_canonical.py:237-247 | the keys and kinds of a character position |
| SchemaLaw.ActionRead | ai_drama_runtime/storyboard_canonical.py:250-263 | the keys and kinds of a character action |
| SchemaLaw.EmotionRead | ai_drama_runtime/storyboard_canonical.py:266-275 | the keys and kinds of an emotion entry |
| SchemaLaw.DialogueRead | ai_drama_runtime/storyboard_canonical.py:278-287 | the keys and kinds of a dialogue entry |
| SchemaLaw.ContinuityRead | ai_drama_runtime/storyboard_canonical.py:296-303 | the keys and kinds of a continuity note |
| SchemaLaw.SourceRead | ai_drama_runtime/storyboard_canonical.py:126-131 | the keys and kinds of the source |
| StoryboardShots.ValidateCharacterActions | ai_drama_runtime/storyboard_canonical.py:250-263 | the loop reports the code of the first faulty action |
| StoryboardShots.ActionsValidIff | ai_drama_runtime/storyboard_canonical.py:250-263 | no fault if and only if every action conforms and their orders rise strictly from at least 1 |
| ValidatorLaw.ActionsAcceptedByTables | ai_drama_runtime/storyboard_canonical.py:250-263 | actions are accepted exactly when each is a dict of the three keys with its values and the orders rise from at least 1 |
| ValidatorLaw.ActionFaultByTables | ai_drama_runtime/storyboard_canonical.py:250-263 | the code reported for the first action that does not stand |
| StoryboardShots.ValidateShots | ai_drama_runtime/storyboard_canonical.py:166-225 | the loop over ids seen and the order map reports the code of the first faulty shot |
| StoryboardShots.ShotsValidIff | ai_drama_runtime/storyboard_canonical.py:166-225 | no fault if and only if every shot conforms, lies in an existing scene, lasts 5 to 15 seconds, ids differ and orders rise strictly within each scene |
| ShotLaw.ShotRead | ai_drama_runtime/storyboard_canonical.py:171-192 | the sixteen keys of a shot and their kinds |
| ShotLaw.ShotsAcceptedByTables | ai_drama_runtime/storyboard_canonical.py:166-225 | shots are accepted exactly when each is such a dict in a known scene with a new id of the pattern, an order above the earlier ones of its scene, 5 to 15 seconds and actions in order |
| ShotLaw.ShotFaultByTables | ai_drama_runtime/storyboard_canonical.py:166-225 | the code reported for the first shot that does not stand, in the order of the checks |
| StoryboardValidation.ValidateStoryboardCanonical | ai_drama_runtime/storyboard_canonical.py:114-123 | header, scenes and shots are checked in order and the first fault is reported |
| StoryboardValidation.StoryboardValidIff | ai_drama_runtime/storyboard_canonical.py:114-225 | the validator accepts exactly the sound storyboards |
| ShotLaw.StoryboardByTables | ai_drama_runtime/storyboard_canonical.py:114-123 | behind a sound header the fault of the scenes is reported first, then that of the shots against the ids of those scenes |
| ShotLaw.BadHeaderByTables | ai_drama_runtime/storyboard_canonical.py:114-131 | a header without the six keys, the version, the ids or the source is a schema fault |
| StoryboardValidation.SoundApplies | ai_drama_runtime/storyboard_canonical.py:52-72 | an accepted storyboard stays accepted when normalised and when its keys are sorted |
| StoryboardValidation.ContentHashIsObjectId | ai_drama_runtime/services.py:1545-1567 | a generated storyboard's content hash, taken after parsing its stored text again, is the id of its content object |
| StoryboardValidation.HashDecidesSameNormalForm | ai_drama_runtime/storyboard_canonical.py:75-77 | two accepted storyboards have one hash if and only if their normal forms are equal |
| StoryboardRenderer.GroupShots | ai_drama_runtime/storyboard_renderer.py:43-45 | the grouping loop gives each scene its shots in input order |
| StoryboardRenderer.RenderStoryboard | ai_drama_runtime/storyboard_renderer.py:29-61 | the validator's fault, or one section per scene with its shots |
| StoryboardRenderer.RenderingIsSortedPermutation | ai_drama_runtime/storyboard_renderer.py:43-61 | for every accepted storyboard the written shots are the input shots, each once, under their own scene, strictly ordered by scene and shot order |
| StoryboardMigration.ParseLegacyShots | ai_drama_runtime/storyboard_migration.py:21-160 | the line loop returns what scanning the lines one by one specifies, with the first error |
| StoryboardMigration.LineReader.OpenShot | ai_drama_runtime/storyboard_migration.py:74-107 | a shot heading finishes the current shot, takes the scene of the current reference and the next order in it, or raises |
| StoryboardMigration.LineReader.FinishCurrent | ai_drama_runtime/storyboard_migration.py:45-51 | the current shot is appended only when all required fields were met |
| LegacyParsing.StepKeepsSound | ai_drama_runtime/storyboard_migration.py:54-155 | every line keeps scenes and shots numbered and the order map counting |
| LegacyParsing.ParsedIsNumbered | ai_drama_runtime/storyboard_migration.py:21-160 | whenever the parser returns there is one scene per scene heading and one shot per shot heading, numbered in order, every shot under an existing scene with its order counting 1, 2, 3, ... there |
| LegacyParsing.NumberedShotsRise | ai_drama_runtime/storyboard_migration.py:74-88 | so shot ids differ and orders rise strictly within a scene |
| MigrationLaw.ErrorByLines | ai_drama_runtime/storyboard_migration.py:21-160 | the first offending line decides the error: a shot heading before any scene or after a shot that lacks a field, or a duration that is no integer |
| MigrationLaw.ShotsByLines | ai_drama_runtime/storyboard_migration.py:21-160 | without one the parser fails only for the last shot's fields or for want of a shot; otherwise each shot's columns are the last values its lines give since its heading, or the written defaults, and its scene is that of the last scene heading |
| MigrationLaw.ScenesByLines | ai_drama_runtime/storyboard_migration.py:54-73 | the scenes are the scene headings, numbered, with their references |
| LegacyCandidate.MigrationFaultsOnlyDurations | ai_drama_runtime/storyboard_migration.py:163-178 | with non-empty source ids the candidate is valid if and only if every duration is 5 to 15, and a duration is the only fault it can have |
| CandidateLaw.PaddedByDigits | ai_drama_runtime/storyboard_migration.py:13-18 | the number in an id is decimal with at least three digits and no other leading zero |
| CandidateLaw.ShotByTables | ai_drama_runtime/storyboard_migration.py:84-107 | each column of a migrated shot is under its own key |
| CandidateLaw.VisualByTables | ai_drama_runtime/storyboard_migration.py:92-97 | the visual composition of a migrated shot, key by key |
| CandidateLaw.PositionsByTables | ai_drama_runtime/storyboard_migration.py:129-138 | the one character position of a migrated shot, or none |
| CandidateLaw.ActionsByTables | ai_drama_runtime/storyboard_migration.py:139-140 | the one action of a migrated shot, or none |
| CandidateLaw.EmotionByTables | ai_drama_runtime/storyboard_migration.py:141-149 | the one emotion entry of a migrated shot, or none |
| CandidateLaw.DialogueByTables | ai_drama_runtime/storyboard_migration.py:150-151 | the one line of dialogue of a migrated shot, or none |
| CandidateLaw.ContinuityByTables | ai_drama_runtime/storyboard_migration.py:152-155 | a continuity note keeps its text under must_preserve |
| CandidateLaw.SceneByTables | ai_drama_runtime/storyboard_migration.py:60-72 | a migrated scene, key by key |
| CandidateLaw.CandidateByTables | ai_drama_runtime/storyboard_migration.py:163-178 | the candidate names its origin and holds one dict for each scene and each shot, in order |
| LegacyCandidate.LegacyMarkdownToCanonical | ai_drama_runtime/storyboard_migration.py:163-178 | parse, build and validate: the candidate, the parser's error or the validator's fault |
| ShotPrompts.ValidateShots | ai_drama_runtime/shot_prompt_canonical.py:143-178 | the loop over normalised ids reports the code of the first faulty shot |
| ShotPrompts.PromptsValidIff | ai_drama_runtime/shot_prompt_canonical.py:143-178 | no fault if and only if the list is not empty, every shot conforms, and ids differ and orders rise within each scene after normalisation |
| PromptLaw.PromptRead | ai_drama_runtime/shot_prompt_canonical.py:14-30 | the fifteen keys of a shot prompt and their kinds |
| PromptLaw.PromptsAcceptedByTables | ai_drama_runtime/shot_prompt_canonical.py:143-178 | prompts are accepted exactly when there is one, each is such a dict of 5 to 15 seconds, ids differ and orders rise within each scene in normal form |
| PromptLaw.PromptFaultByTables | ai_drama_runtime/shot_prompt_canonical.py:143-178 | the code reported for the first prompt that does not stand, in the order of the checks |
| ShotPrompts.AcceptedPromptsNormalize | ai_drama_runtime/shot_prompt_canonical.py:67-87 | an accepted list stays accepted when normalised, and its stored ids are then distinct as they stand |

## Left out

- Time stamps, file modes beyond the backup's comparison, directory creation, file-system permissions and symbolic links.
- Concurrency inside one store method: each is one step. `transition_generation_job` reads and writes in two statements; a second connection between them is not modelled.
- UTF-8 decoding errors: texts are sequences of Unicode scalar values and stored objects are texts or bytes that are not UTF-8.
- Floats in JSON (the decoder reports them as not modelled), lone surrogate escapes (Python accepts them, the model's text type cannot hold them), dict keys that are not strings, and Python's limit on the digits of an integer.
- The tables of Unicode NFC and the computation of SHA-256.
- `_validate_snapshot`, the canonical request hash and stable built-in model ids: the enqueue and sync calls take their results as arguments.
- Status changes of generation jobs made outside the product store (credential revocation), and the database migrations.
- HTTP routes, schemas, SQL text, provider clients, workers, the poller, credentials and secrets.
- The heartbeat lines and sleeps of the event stream; an emitted event stands for its text.
- StoryboardRenderer.RenderStoryboard: the text of the lines is not modelled, only which scene or shot each block belongs to and the order of blocks. The bundle takes the whole renderer as a function.
- StoryboardMigration.ParseLegacyShots: the regular expressions that classify a line, and `int()`, are not modelled; lines arrive classified and the conversion is an argument.
- LegacyCandidate.LegacyMarkdownToCanonical: takes classified lines for the same reason.
- Bundle.Check: a manifest that is not strict JSON but that `json.loads` still reads is covered by an argument that agrees with the strict decoder where that one succeeds.
- Bundle.Approve: the other guards of `approve_revision` (run status, freshness, validators, empty content) are one boolean argument.
- Bundle.ApprovedBundlesKeepPassing: files damaged outside the store's own methods are not among the steps.
- BundleExport.Provenance: the artifact id and run id columns are not modelled.
- BundleExport.Exporter.CleanUp: an exception inside the clean-up itself is not modelled.
- BundleExport.Exporter.AtomicSuccessfulBundleExport: an exception surfaces before the operation of its point takes effect, so an interrupt between two points counts as one at the later point.
- Storyboard revisions that are refused before numbering (gates, validators) and the prepared-script finaliser of `services.py`.
- Enqueue.SessionReplayAddsNothing: the fresh text-run id is taken to be new to both tables, as a uuid is.
- Enqueue.LaterCallsReplay: all fresh ids of the history are taken to be new to both tables, as uuids are; so in Enqueue.LaterScriptsReplay.
- GarbageCollection.ValidatePayload: the checks of the payload's credential rows are one boolean argument; so in GarbageCollection.VerifyBackupManifest.
- GarbageCollection.VerifyBackupManifest: see the line above.
- Backup creation and restore; `_kind` of an object is an argument.
- GarbageCollection.CollectionLosesNothing: files deleted or added by others between the plan and the loop are not modelled.
