# Pipeline artifact journal: a Dafny model

memQL stores the files a pipeline step produces through a durable journal that spans three systems:
Postgres tables (uploads, references, scope fences), a blob provider, and the Library rows that
present each file. Any number of replicas work on them at once, and any of them can die, or lose a
reply, between any two steps. This project models that protocol, and two smaller ones beside it, and
proves what holds in every reachable state and along every run.

* **The journal.** `Types`, `Sizes`, `Library`, `Provider` and `Journal` hold the values and one function
  per SQL transaction. `Store` is the same journal as mutable tables: each transaction is a method with
  the loops of the code, proved against its function. `Protocol` is the state machine: a label names the
  step a scheduler picks next (one transaction, one provider call, one engine write, a crash, or an
  outside writer), `Exec` runs any schedule. `Invariant` and `Preservation` prove one invariant of all
  schedules; `Evolution` says what durable state may never undo and `Steps` what each kind of step can change
  at all. `Transactions` spells out what each transaction decides and changes in every reachable state, and
  `Progress` what undisturbed calls achieve. The other results are in `Guarantees`, `Presentation`, `Writers`,
  `Resumption`, `Retirement`, `Cleanup`, `Capacity`, `Adoption` and `Lifecycle`.
* **Approved revisions.** `Revision` is the state machine of interleaved `SaveRevision` calls, other
  version writers and crashes; `RevisionFiles` is the call as the code runs it.
* **Recovery keys.** `RecoveryKey` is the state machine of interleaved, crashing claims; `RecoveryClaim` is
  one claim as the code runs it.

`Sums` and `Orders` hold the finite sums and strict total orders the proofs use.

## Reading the model

* SHA-256 identities are injective constructors over the fields that are hashed. The order of intent ids
  is an arbitrary strict total order.
* A transaction is one atomic step that commits or rolls back. `finalizeStream` is split: it holds the
  owner's lock and its row while the engine writes commit on their own, so what it wrote survives its
  rollback. `savePipelineVerified` takes only the row lock. A commit whose reply is lost leaves its effect
  and a failed call. Steps that are not enabled change nothing, so a theorem about all runs is a theorem
  about all schedules.
* The database's own guards are part of the model: unique file and object keys and the size check
  (component/database/memory-nodes/migrations/20261007010000_pipeline_artifact_uploads.up.sql), the fence
  trigger on inserts and generation changes (20261007130000_pipeline_artifact_scope_fences.up.sql) and the
  trigger that refuses Library writes for a file in retirement (20261020020000_pipeline_artifact_library_fence.up.sql).
* Provider: a create never overwrites and fails on a tombstone; a tombstone is permanent; retirement with
  another marker is refused. Every retirement call may leave a new tombstone ETag, because the code
  commits the tombstone again under the lease.
* Other Library writers append versions, as every engine write does; only the purge deletes any. They
  are otherwise unrestricted except that they never put a first row under a file id derived from an intent,
  that an index entry's id derives from the file it names, and that the retirement trigger applies to them.
  Other writers of objects never overwrite one and never write under a derived file id.
* The URL that the provider answers for a stored revision ends with the object's name
  (integrations/azureblob/uploader.go:64-66).
* Rows of recovery keys are append-only too: the query that lists the live ones sorts by the time of each
  row's latest version, and the model takes those times to follow the order of the writes.
* Superseded versions and open upload sessions enter admission as an arbitrary list of sizes.

## What the code does where a reader may expect something else

* `AdoptLegacyRunLog` does not read the scope fence, but the journal's trigger refuses its insert, so
  the fence and cleanup results hold with adoptions running. Adoption runs no admission: the storage bound is
  about the objects that reservations put into storage.
* "Repeated adoption resolves the same receipt" fails for a file whose upload is still under way: the
  first caller gets a receipt without URL and ETag. `UnfinishedAdoptionsDiffer` is a run that shows it;
  `AdoptionsAgree`, `AdoptionRepeats` and `AdoptionsAgreeByRow` say exactly when receipts agree.
* A finalizer that saw no Library row records one without looking again. `Capacity.RunShown` proves that
  what it saw is still true then.

## Model

| member | source | states |
|---|---|---|
| `Sizes.QuotaSize` | app/pipelines_library_stream_journal.go:206-231 | accepts exactly the values that denote a whole number from 0 to below 2^63, and reads them unchanged |
| `Sizes.SizeMatchesDenoted` | app/pipelines_library_stream.go:232-246 | a size matches if and only if it denotes the expected number, in whichever dynamic form |
| `Sizes.SizeReadersAgree` | app/pipelines_library_stream.go:232-246 | the two readers of a size agree on every size a journal row can have: matching if and only if charged as exactly that size |
| `Library.MatchesIffShows` | app/pipelines_library_stream.go:205-230 | a row is accepted if and only if owner, source, run, step, name, type, URL, digest and size all agree with the identity, field by field |
| `Library.DeletedIffOwned` | app/pipelines_library_retention.go:172-178 | the `=` delete leaves no version of a file, or of its index entry, if and only if the `IS DISTINCT FROM` guard found no foreign version, NULLs included |
| `Library.CheckedIffUntouched` | app/pipelines_library_retention.go:63-129 | the retirement check passes if and only if every version of the file and its entry is the owner's pipeline's, none was superseded, the file's head shows all nine fields of the identity, ready, first version and training nothing, and the entry is neither renamed, filed, labelled nor linked |
| `Library.PurgeLeavesNoHead` | app/pipelines_library_retention.go:63-129 | whenever the retirement check passes, the delete removes every historical version of the file and of its entry, and nothing of any other file |
| `Invariant.OwnerFilterMissesNoPin` | app/pipelines_library_lifecycle.go:198-205 | the owner-filtered pin test finds an active reference if and only if any owner holds one |
| `Preservation.ReserveKeeps` | app/pipelines_library_stream_journal.go:41-102 | a reservation, new or repeated, committed or refused, with or without its reply, keeps the whole invariant and undoes nothing durable |
| `Preservation.UploadKeeps` | app/pipelines_library_stream.go:54-62 | the create-only upload, whatever it finds, keeps the invariant; bytes appear only under a committed reservation |
| `Preservation.SaveVerifiedKeeps` | app/pipelines_library_stream_journal.go:233-255 | recording the verified version under the row lock alone keeps the invariant |
| `Preservation.FinalizeRecordKeeps` | app/pipelines_library_stream.go:144-161 | the independent engine write of the Library row, kept or lost by its caller, keeps the invariant |
| `Preservation.FinalizePromoteKeeps` | app/pipelines_library_stream.go:162-173 | so does the promotion of the row |
| `Preservation.FinalizeCommitKeeps` | app/pipelines_library_stream.go:174-183 | so does the commit that makes the intent ready |
| `Preservation.ChangeReferenceKeeps` | app/pipelines_library_lifecycle.go:42-117 | pin and release keep the invariant: what an active reference names is ready and in its scope |
| `Preservation.BeginRetirementKeeps` | app/pipelines_library_lifecycle.go:181-238 | the journal mark keeps the invariant; it starts only where nothing is pinned |
| `Preservation.RetireObjectKeeps` | integrations/azureblob/retire_stream.go:44-145 | the provider tombstone appears only behind a row in retirement, with that row's marker |
| `Preservation.ConfirmRetirementKeeps` | app/pipelines_library_lifecycle.go:152-178 | confirmation keeps the invariant: a retired row has a tombstone |
| `Preservation.PurgeKeeps` | app/pipelines_library_retention.go:137-193 | the purge keeps the invariant |
| `Preservation.AdoptCommitKeeps` | app/pipelines_library_legacy_log.go:86-123 | the adoption transaction keeps the invariant |
| `Preservation.EditLibraryKeeps` | component/database/memory-nodes/migrations/20261020020000_pipeline_artifact_library_fence.up.sql:7-41 | any other Library write that the retirement trigger admits keeps the invariant |
| `Preservation.StepKeeps` | app/pipelines_library_stream.go:36-74 | every step of every call keeps the invariant and lets durable state only grow |
| `Preservation.RunKeeps` | app/pipelines_library_stream.go:36-74 | so does every schedule, by induction over runs |
| `Preservation.ReachableInv` | app/pipelines_library_stream.go:36-74 | the invariant holds in every reachable state |
| `Transactions.IdentityFields` | app/pipelines_library_stream.go:248-252 | two identities are one intent if and only if owner, run, step, attempt and path agree, and of one scope if and only if the first four do |
| `Transactions.IdentityBounds` | component/database/memory-nodes/migrations/20261007010000_pipeline_artifact_uploads.up.sql:9-9 | the journal takes sizes from 0 to 2 GiB and attempts from 1 |
| `Transactions.InsertExact` | component/database/memory-nodes/migrations/20261007010000_pipeline_artifact_uploads.up.sql:3-16 | the journal takes a new row if and only if its id, file and object are new, its size is within bounds, and no fence of its owner covers its run, step and attempt |
| `Transactions.AdmissionExact` | app/pipelines_library_stream_journal.go:132-204 | admission accepts if and only if every size is readable and the new file fits the quota beside the owner's rows that are not retired, the current files that do not present exactly the bytes of a row of the same file, and all other sizes |
| `Transactions.ReserveExact` | app/pipelines_library_stream_journal.go:41-102 | in every reachable state a reservation commits if and only if its scope is not fenced and its intent is new and fits the quota, or is the same identity and not in retirement; a new intent gets a fresh row, field by field, an existing one only the next generation, and nothing else changes |
| `Transactions.SaveExact` | app/pipelines_library_stream_journal.go:233-255 | a verified object is recorded if and only if its caller's generation holds the row, short of retirement, and it is the version recorded already, if one is; only that row changes, as stated |
| `Transactions.FinalizeExact` | app/pipelines_library_stream.go:127-136 | a finalizer goes on if and only if its generation holds the row, verified, with its own receipt; its last statement makes exactly that row ready |
| `Transactions.ReleaseExact` | app/pipelines_library_lifecycle.go:42-117 | in every reachable state a release commits if and only if it is well formed and the reference is new or was recorded for the same ids; the reference is then released and nothing else differs |
| `Transactions.PinExact` | app/pipelines_library_lifecycle.go:42-117 | in every reachable state a pin commits if and only if it is well formed, the reference is new or was recorded for the same ids and never released, and every id is ready in the scope; the reference is then active and nothing else differs |
| `Transactions.LastReleaseUnpins` | app/pipelines_library_lifecycle.go:198-205 | after a release an intent is pinned if and only if another active reference names it |
| `Transactions.ReferencesSorted` | app/pipelines_library_lifecycle.go:54-60 | in every reachable state the ids of a stored reference are in increasing order, so that a request is compared as a set |
| `Transactions.BeginExact` | app/pipelines_library_lifecycle.go:181-238 | in every reachable state a retirement begins, or is taken up again, if and only if it is asked for in the intent's own scope and is under way, or nobody pins the intent and nobody but the pipeline touched the file; beginning changes exactly the row's state, generation by one, and lease |
| `Transactions.ConfirmExact` | app/pipelines_library_lifecycle.go:160-173 | a retirement is confirmed if and only if its generation and lease hold a row in retirement; exactly that row becomes retired with the tombstone's ETag |
| `Transactions.PurgeExact` | app/pipelines_library_retention.go:154-187 | in every reachable state a purge commits if and only if the intent is retired and asked for in its own scope; it empties the file's and the entry's history, marks the row and changes nothing else |
| `Transactions.FenceExact` | app/pipelines_library_scope.go:51-82 | in every reachable state a fence commits; the scope is then fenced, and no other fence and no other table differs |
| `Transactions.LegacyReadExact` | app/pipelines_library_legacy_log.go:43-73 | a Library row is taken for a legacy log if and only if the scope's own pipeline wrote it, it is plain text named .log and at most 32 MiB; the intent offered for it is stated field by field |
| `Transactions.AdoptNewDecides` | app/pipelines_library_legacy_log.go:86-123 | a candidate without a journal row is adopted if and only if nobody but the pipeline touched its file, its id is free and its scope is not fenced; exactly one row is inserted, field by field |
| `Transactions.AdoptKnownExact` | app/pipelines_library_legacy_log.go:126-144 | a file with a journal row gives its own scope the row's receipt, refuses any other, and nothing changes |
| `Guarantees.PinnedBytesSurvive` | app/pipelines_library_lifecycle.go:42-117 | in every reachable state an intent named by an active reference is ready, in its scope, and its object still holds exactly the bytes and version of its receipt |
| `Guarantees.StorageBound` | app/pipelines_library_stream_journal.go:136-204 | at every point of every run the live bytes that reservations put into storage for an owner are at most the quota |
| `Guarantees.LifecycleMonotone` | app/pipelines_library_stream_journal.go:63-101 | along every run a row never disappears, its identity, file, object and size never change, its state and generation never fall, a receipt and a lease never change, and its key is the hash of its identity |
| `Guarantees.ReceiptsExact` | app/pipelines_library_receipts.go:83-122 | reading receipts succeeds if and only if every id is ready in exactly this owner, run, step and attempt; it returns one complete receipt per id in the requested order, each describing its row field by field |
| `Guarantees.ReportDescribes` | app/pipelines_library_receipts.go:124-132 | the receipt a successful store call reports describes the journal's row field by field |
| `Guarantees.OneOutcomePerIdentity` | app/pipelines_library_stream.go:36-74 | all successful store calls for one intent report the same complete receipt |
| `Guarantees.ReceiptReadsBack` | app/pipelines_library_receipts.go:83-132 | that receipt is what reading receipts returns at every later moment until retirement begins |
| `Presentation.ReadyWasPresented` | app/pipelines_library_stream.go:137-183 | in every reachable state, under every interleaving with other Library writers, the history of a ready intent's file holds a version that was ready and presented exactly its object |
| `Presentation.SuccessWasPresented` | app/pipelines_library_stream.go:68-74 | so does that of a file whose call reported success, at every later moment until it is purged |
| `Guarantees.PinReturnsReceiptsInOrder` | app/pipelines_library_lifecycle.go:86-101 | a successful pin returns exactly one receipt per requested id, in the requested order, describing its row field by field |
| `Guarantees.ReferenceOrderIrrelevant` | app/pipelines_library_lifecycle.go:54-60 | in every reachable state a request in one order of its ids commits if and only if it does in any other, with the same tables, and is refused with the same error |
| `Guarantees.ReferenceMonotone` | app/pipelines_library_lifecycle.go:102-116 | along every run a reference never disappears, never changes its scope or artifact set and never leaves released |
| `Guarantees.ReleaseIsPermanent` | app/pipelines_library_lifecycle.go:76-85 | once released, every later pin of the reference is refused, in every continuation |
| `Writers.StaleWriterInert` | app/pipelines_library_stream_journal.go:239-248 | once a newer reservation or a retirement commits, no later step of the older writer changes a table and its call never reports success |
| `Writers.ReservationsGetFreshGenerations` | app/pipelines_library_stream_journal.go:71-75 | of two reservations of one intent, at any distance in a run, the later one gets the greater generation |
| `Resumption.FinalizerOutcome` | app/pipelines_library_stream.go:118-184 | an undisturbed finalizer reports the stored file if and only if the file is absent or presents exactly this object as stored or ready |
| `Resumption.StoreOutcome` | app/pipelines_library_stream.go:36-74 | from every reachable state and for every identity an undisturbed call succeeds if and only if the scope is not fenced and: a first call is admitted; a retry finds its intent with the same identity, not in retirement, its receipt confirmable, and a Library that presents nothing else under its file |
| `Resumption.ReservedRowsConfirmable` | app/pipelines_library_stream_journal.go:246-251 | the receipt of every row that a reservation created names its object by the provider's URL, so a retry can always confirm it |
| `Lifecycle.FirstCallStores` | app/pipelines_library_stream.go:36-74 | an undisturbed, admitted first call leaves exactly one ready row and exactly the generated presentation |
| `Lifecycle.GeneratedUntouched` | app/pipelines_library_stream.go:144-161 | what a first call records is exactly what a retirement accepts |
| `Lifecycle.StoreThenRetire` | app/pipelines_library_lifecycle.go:119-179 | from every reachable state a file stored by an undisturbed call and then retired and purged is gone; no other row, reference or fence differs, and every owner's footprint is what it was |
| `Retirement.OneToken` | app/pipelines_library_lifecycle.go:206-214 | once retirement has begun, the lease token, the generation and the marker given to the provider never change |
| `Retirement.RetirersShareToken` | app/pipelines_library_lifecycle.go:206-214 | any two calls retiring one intent, before or after their tombstone, hold the same token, generation and marker |
| `Retirement.RetirerNeverRefused` | app/pipelines_library_lifecycle.go:191-214 | from every state in retirement the next retirer is not refused by a pin: it picks up the persisted token and generation and changes nothing |
| `Retirement.RetirerUnderWayNeverRefused` | app/pipelines_library_lifecycle.go:143-178 | in every reachable state the provider takes the marker of a retirer under way, and the confirmation of one that holds a tombstone commits: it is neither stale nor without its lease, whatever ran since it began |
| `Retirement.ProviderAccepts` | integrations/azureblob/retire_stream.go:44-145 | the provider accepts that token from every reachable state in retirement |
| `Retirement.OwnerUseIsKept` | app/pipelines_library_retention.go:63-129 | in every reachable state a file in retirement has been touched by nobody but the pipeline: a file its owner used is never retired or purged |
| `Retirement.RetirementCompletes` | app/pipelines_library_lifecycle.go:123-179 | from every reachable retiring state a resumed call whose steps go through, and then the purge, retire the bytes and remove the presentation |
| `Retirement.PurgeSucceeds` | app/pipelines_library_retention.go:158-187 | the purge of a retired intent is never refused by its presentation |
| `Retirement.PurgedStaysGone` | app/pipelines_library_retention.go:172-187 | after a purge no file or entry row and no byte of it comes back in any continuation, and the journal keeps its identity, receipt and lease |
| `Progress.RetirementRuns` | app/pipelines_library_lifecycle.go:119-179 | from every reachable state, for an intent in any state short of retirement that nobody pins and whose file nobody but the pipeline touched, an undisturbed retirement and purge end with bytes and presentation gone; only that row differs |
| `Progress.ReleaseStands` | app/pipelines_library_lifecycle.go:33-40 | with the owner's lock free a release releases, and the reference stays released in every continuation |
| `Progress.PinActs` | app/pipelines_library_lifecycle.go:27-32 | with the owner's lock free a pin of ready intents makes the reference active |
| `Progress.FinalizerActs` | app/pipelines_library_stream.go:140-173 | a finalizer records its own row where it saw none and promotes whatever row is current |
| `Progress.LostReply` | app/pipelines_library_stream.go:54-59 | a lost reply leaves exactly the durable effect of its step, and a call that knows nothing of it |
| `Progress.CrashEnds` | app/pipelines_library_stream.go:31-35 | a crash ends any call that has not reported and does nothing else |
| `Progress.OthersAct` | component/database/memory-nodes/migrations/20261020020000_pipeline_artifact_library_fence.up.sql:7-41 | what other writers can always do meanwhile: append any version of a file or entry that is not in retirement, and mark a superseded version |
| `Progress.OtherObjectsAppear` | integrations/azureblob/verified_stream.go:53-160 | other objects can appear wherever there is none, outside derived ids |
| `Progress.UploadActs` | app/pipelines_library_stream.go:54-59 | an upload whose stream is not delivered stores nothing; a delivered one stores its bytes where there is nothing, and nowhere else |
| `Progress.ProviderStores` | integrations/azureblob/verified_stream.go:53-160 | the provider stores bytes only where there is nothing and vouches exactly for bytes that are there |
| `Progress.ProviderRetires` | integrations/azureblob/retire_stream.go:44-145 | the provider retires an absent object, one with exactly the receipt's bytes and version, or one this marker retired already, and keeps any other |
| `Cleanup.FencedRowsFixed` | app/pipelines_library_scope.go:46-82 | after the fence the set of intents of the scope never changes, adoptions included |
| `Cleanup.CleanupIsComplete` | app/pipelines_library_scope.go:46-82 | once a scope is fenced and every inventoried intent retired, in every continuation none is created or revived, every object stays a tombstone and no earlier uploader reports success |
| `Cleanup.ClosedScopeRefusesAll` | app/pipelines_library_stream_journal.go:54-70 | in such a state every reservation, receipt read and pin of the scope is refused |
| `Progress.FenceStands` | app/pipelines_library_scope.go:46-82 | with the owner's lock free fencing a scope fences it and changes nothing else; in every continuation every reservation in it is refused |
| `Cleanup.PageSplits` | app/pipelines_library_scope.go:115-118 | a page takes the least remaining ids and leaves exactly those after its last id |
| `Cleanup.InventoryExact` | app/pipelines_library_scope.go:84-139 | following the last id until an empty page lists every intent of the scope exactly once in increasing order, whatever runs between the pages |
| `Cleanup.InventoryRefinesSnapshot` | app/pipelines_library_scope.go:84-139 | the listing equals the sorted snapshot of the scope at the moment it began |
| `Cleanup.InventoryTerminates` | app/pipelines_library_scope.go:84-139 | there are never more nonempty pages than intents left to list |
| `Capacity.CapacityConserved` | app/pipelines_library_stream_journal.go:132-204 | along every run an owner's measured footprint changes by exactly the bytes newly reserved, minus the bytes whose retirement was confirmed, plus the change of charge of the files that other writers wrote, which is nothing when they wrote none |
| `Capacity.ReachableBalance` | app/pipelines_library_stream_journal.go:132-204 | per step, after any history: no step moves an owner's balance, except that a file written by somebody else moves it by that file's charge |
| `Capacity.ReservationCharges` | app/pipelines_library_stream_journal.go:80-101 | a new reservation raises its owner's footprint, and nobody else's, by its size |
| `Capacity.ConfirmationFrees` | app/pipelines_library_lifecycle.go:160-171 | a row that becomes retired lowers its owner's footprint, and nobody else's, by its size, and its object was already a tombstone |
| `Capacity.NothingElseMoves` | app/pipelines_library_stream.go:137-183 | between two moments with no new reservation and no new confirmation the footprint changes only by what other writers of files did, whatever was verified, finalized, adopted, indexed, purged, retried or lost |
| `Capacity.RowAdopted` | app/pipelines_library_legacy_log.go:69-123 | adoption moves a file's charge from the Library to the journal, byte for byte |
| `Capacity.PurgeBalance` | app/pipelines_library_retention.go:175-183 | a purge frees no capacity: what it deletes was not charged |
| `Capacity.RunShown` | app/pipelines_library_stream.go:137-161 | in every reachable state a finalizer that saw no Library row is still right, and an adopted file is presented until purged |
| `Adoption.OneRowPerFile` | app/pipelines_library_legacy_log.go:86-123 | any interleaving leaves at most one journal row per file |
| `Adoption.AdoptionsAgree` | app/pipelines_library_legacy_log.go:33-42 | two successful adoptions of one file name the same intent, scope and bytes, and their receipts are equal if and only if both or neither already had the object's version |
| `Adoption.LegacyAdoptionsAgree` | app/pipelines_library_legacy_log.go:33-42 | for a file the journal did not store itself the receipts are always equal and complete |
| `Adoption.AdoptionRepeats` | app/pipelines_library_legacy_log.go:126-144 | every later same-scope adoption succeeds, also after retirement, and returns the recorded receipt if and only if that was complete or the row still is not |
| `Adoption.AdoptionsAgreeByRow` | app/pipelines_library_legacy_log.go:126-144 | on the journal row: two same-scope adoptions, at any distance in a run, both succeed and return the same receipt if and only if the row had its ETag at the first or still has none at the second |
| `Adoption.OtherScopeRefused` | app/pipelines_library_legacy_log.go:97-110 | a file with a journal row is refused to every other scope, on both paths, in every continuation |
| `Adoption.UnfinishedAdoptionsDiffer` | app/pipelines_library_legacy_log.go:126-144 | a run in which two successful same-scope adoptions of one file return different receipts |
| `Progress.AdoptOutcome` | app/pipelines_library_legacy_log.go:20-124 | from every reachable state an undisturbed adoption of a file without a journal row succeeds if and only if the file is a legacy log of the scope, its object is intact and named by the row, nobody but the pipeline touched it, and neither a fence nor another intent is in the way; it inserts exactly the row described, and a refused one changes nothing |
| `Progress.KnownOutcome` | app/pipelines_library_legacy_log.go:33-42 | with the owner's lock free adopting a file that has a journal row returns its receipt to its own scope, refuses any other and changes nothing |
| `Store.PipelineStore.ChargeJournal` | app/pipelines_library_stream_journal.go:143-181 | the loop over journal rows, in any order, succeeds if and only if their true total fits, leaves exactly the rest, and retains every row by its file |
| `Store.PipelineStore.ChargeFiles` | app/pipelines_library_stream_journal.go:182-203 | the loop over current files succeeds if and only if every size is readable and the total of files not naming retained bytes fits |
| `Store.PipelineStore.ChargeOthers` | app/pipelines_library_stream_journal.go:182-203 | the loops over versions and sessions succeed if and only if every size is readable and their true total fits |
| `Store.PipelineStore.Admit` | app/pipelines_library_stream_journal.go:136-204 | with 64-bit arithmetic and no overflow, admission accepts if and only if the true total with the new file is at most the quota |
| `Store.PipelineStore.ReserveStream` | app/pipelines_library_stream_journal.go:41-102 | commits or refuses exactly as the reservation transaction of the protocol |
| `Store.PipelineStore.SaveVerifiedObject` | app/pipelines_library_stream_journal.go:233-255 | commits or refuses exactly as the verification transaction of the protocol; on success the row carries the URL and ETag and is verified or ready |
| `Store.PipelineStore.Record` | app/pipelines_library_stream.go:140-161 | where the file had no row and is not in retirement, the recorded row follows what others wrote before it; elsewhere nothing is written; what it goes on with is the file's current row |
| `Store.PipelineStore.Promote` | app/pipelines_library_stream.go:165-173 | unless the file is in retirement, ready is merged into whatever row is current after other writers, and the row it goes on with is the file's current one |
| `Store.PipelineStore.Present` | app/pipelines_library_stream.go:140-179 | for every sequence of writes by others between its steps, states the file's whole history, and goes on if and only if the version at its last read is ready and presents exactly this object |
| `Store.PipelineStore.FinalizeStream` | app/pipelines_library_stream.go:118-184 | for every sequence of writes by others between its steps, the intent becomes ready if and only if its row is current and the version at its last read is ready and presents exactly this object; otherwise no journal row changes |
| `Store.QuietRead` | app/pipelines_library_stream.go:140-179 | undisturbed, the last read presents the object if and only if the file was absent or presented it as stored or ready |
| `Store.ReadExtends` | app/pipelines_library_stream.go:140-179 | whatever others write, every earlier version stays in the history |
| `Store.PipelineStore.CheckIds` | app/pipelines_library_receipts.go:66-79 | the loop over `seen` accepts if and only if there are at most 1024 ids and no two are equal |
| `Store.PipelineStore.ReadRunFileReceipts` | app/pipelines_library_receipts.go:83-122 | the row loop returns exactly the receipts of the protocol's read |
| `Store.PipelineStore.CheckPinnable` | app/pipelines_library_lifecycle.go:87-96 | the locking loop refuses with the first id that cannot be pinned |
| `Store.PipelineStore.ChangeRunFileReference` | app/pipelines_library_lifecycle.go:42-117 | commits or refuses exactly as the reference transaction of the protocol; on success the reference is released or active as asked, and every other is unchanged |
| `Store.PipelineStore.BeginPipelineRetirement` | app/pipelines_library_lifecycle.go:181-238 | commits or refuses exactly as the protocol's journal mark; short of retirement it succeeds if and only if no reference pins the intent and nobody but the pipeline touched the file, and then the row is retiring, one generation on, under the token |
| `Store.PipelineStore.ConfirmPipelineRetirement` | app/pipelines_library_lifecycle.go:152-178 | commits or refuses exactly as the protocol's confirmation; on success the row is retired with the tombstone's ETag under its lease |
| `Store.PipelineStore.PurgeRetiredRunFile` | app/pipelines_library_retention.go:137-193 | commits or refuses exactly as the protocol's purge, and leaves no version of the file or its entry |
| `Store.PipelineStore.FenceRunFileScope` | app/pipelines_library_scope.go:51-82 | on success the scope is fenced, and every other fence is unchanged; an unfenced scope is always fenced |
| `Store.PipelineStore.ReadFencedRunFileIntents` | app/pipelines_library_scope.go:88-139 | returns the least ids of the scope after the cursor, at most 128, or refuses; it never refuses a fenced scope whose rows are consistent |
| `Store.PipelineStore.AdoptLegacyRunLog` | app/pipelines_library_legacy_log.go:86-123 | commits or refuses exactly as the protocol's adoption transaction |
| `Revision.SuffixDetermines` | app/library_revision_files.go:71-72 | two operation/digest suffixes of one URL are equal |
| `Revision.RunKeeps` | app/library_revision_files.go:40-124 | every schedule of calls, crashes and other writers keeps each version as it was created and its history complete |
| `Revision.SuccessesAgree` | app/library_revision_files.go:66-97 | all calls that succeed from one base version name the same operation and bytes, and the next version is theirs |
| `Revision.OneOperationPerVersion` | app/library_revision_files.go:106-123 | at most one operation becomes version v + 1, for good, and only its calls ever succeed |
| `Revision.LookFinds` | app/library_revision_files.go:73-89 | a committed write is found in the head or in history, even after later edits moved the head on |
| `Revision.RetryAddsNoVersion` | app/library_revision_files.go:90-94 | a retry that starts after its write committed never reaches storage or the version gate, in any interleaving |
| `Revision.RetrySucceeds` | app/library_revision_files.go:54-94 | an undisturbed retry of a committed write changes nothing and succeeds if and only if the document is there, not archived and the caller's |
| `Revision.SaveOutcome` | app/library_revision_files.go:40-124 | from every state with the gate free an undisturbed call succeeds if and only if the document is there, not archived and the caller's, and the write is found, or the document is still at the base and the object is admitted and stored; found, it changes nothing, otherwise the old head moves into the history and the new one is this write's, field by field |
| `Revision.OthersAct` | component/server/artifact_handler.go:2233-2272 | what other writers can always do meanwhile: supersede the head, freeze it and die, measure its digest, archive it |
| `Revision.FaultsLeave` | app/library_revision_files.go:113-123 | an effect that did not happen, or whose reply is lost, sends the call to its last look with exactly that effect in place; a failed re-stamp is an error with everything saved |
| `RevisionFiles.RevisionStore.Reconciled` | app/library_revision_files.go:73-89 | finds the write in the head or in history if and only if it is there |
| `RevisionFiles.RevisionStore.SupersedeFile` | component/server/artifact_handler.go:2233-2272 | freezes and moves the head if and only if it is still the version and URL the caller read and the version number advances; a lost reply changes only the answer |
| `RevisionFiles.RevisionStore.SaveRevision` | app/library_revision_files.go:40-124 | succeeds if and only if the write already landed or lands now and the index entry is re-stamped; moves the head at most once, whatever it answers; a lost reply is recovered by the URL's suffix |
| `RevisionFiles.OneReceipt` | app/library_revision_files.go:73-89 | one document state reconciles at most one operation per base version |
| `RecoveryKey.StepKeeps` | subcommand_recovery_key.go:156-251 | from any store, every step of every claim keeps the latest new key active, an old key live until its owner has a new one, stamps behind reveals, and links pointing to older keys |
| `RecoveryKey.OlderKeyDeactivated` | subcommand_recovery_key.go:203-209 | deactivating a key with a younger, new one of the same owner leaves every owner's latest new key active |
| `RecoveryKey.NeverWithoutLiveKey` | subcommand_recovery_key.go:182-251 | from any store, whatever became of its keys before: an owner with a live key has one after every step of any interleaved or crashed claims, and the latest key created since the run began is active |
| `RecoveryKey.ClaimedImpliesRevealed` | subcommand_recovery_key.go:302-328 | a key is stamped claimed only after its own plaintext was written, and no key of the old store is ever stamped |
| `RecoveryKey.DoneIsStamped` | subcommand_recovery_key.go:236-251 | a successful claim handed out a key of its own, revealed and stamped, and the key it replaces no longer works, for good |
| `RecoveryKey.ReplacedKeyIsDead` | subcommand_recovery_key.go:206-209 | from the moment a claim deactivated the key it read, that key does not work, whatever else happens |
| `RecoveryKey.ClaimOutcome` | subcommand_recovery_key.go:156-256 | an undisturbed claim of a live key is refused if and only if that key is claimed and not to be reclaimed; otherwise it adds one live, stamped, revealed key, retires the one it read, and touches no other |
| `RecoveryKey.ReadsOnlyLive` | component/identity/recoverykey/store.go:262-285 | a claim never goes on with a key that is not live and the owner's |
| `RecoveryKey.EnsureOutcome` | component/identity/recoverykey/invariant.go:178-262 | the boot-time mint gives an owner without a live key one, and does nothing else |
| `RecoveryKey.FaultsLeave` | subcommand_recovery_key.go:302-328 | a lost reply leaves its effect and ends the claim; an effect that did not happen, or a failed write of the plaintext, only ends it |
| `RecoveryKey.LineageAcyclic` | subcommand_recovery_key.go:198-202 | the rotatedFrom links never form a cycle, given that those of the store the run began with point to older keys |
| `RecoveryClaim.KeyStore.ActiveForUser` | dsl/identity/queries.memql:2705-2713 | returns the owner's live keys, most recently written first, all of them or the first page of 50 |
| `RecoveryClaim.KeyStore.ReadKey` | subcommand_recovery_key.go:156-168 | reads the owner's live key that was written last, if there is one |
| `RecoveryClaim.KeyStore.RevealThenClaim` | subcommand_recovery_key.go:302-328 | stamps the key if and only if its plaintext was written and the stamp went through |
| `RecoveryClaim.KeyStore.Claim` | subcommand_recovery_key.go:156-256 | on any store: an owner with a live key keeps one; the claim is refused if and only if there is no live key, or the one written last is claimed and not to be reclaimed; on success the key it read is inactive, the new key is live, stamped and replaces it, and no other key differs; for every fault keys and output are stated field by field, and a claim interrupted after creating its key leaves that key unclaimed and next to be read |

## Left out

- The provider-side storage reservation (`ReserveStorage`): its accounting lives in the provider; the model is the admission path without it.
- Actor, origin and permission checks, MIME resolution, name and path sanitizing, and the text rules for ids, scopes and references: a scope and an identity are taken as validated; an id is well formed by construction.
- Advisory-lock polling, timeouts, contexts and SQL text: a lock is the condition that nobody holds it, and a call that gives up is a crash.
- Wrap-around of the 64-bit generation counter: a generation is an unbounded integer.
- Notification of open views after a purge, and re-stamping of the index entry after a revision beyond its success or failure.
- The retention queue that decides which producer to clean up next: policy, not protocol.
- The bytes of a stream: an object is its size, its digest and its version; a partial upload is no object.
- Loss of a lock or of the version gate by a process that goes on writing: locks and the gate are held until the step that releases them or a crash.
- Redemption of recovery keys, and rotation by a signed-in owner, while claims run: redemption deactivates the presented key and relies on the boot-time mint for the next one. The claim results hold from any store they leave behind.
- The claim's choice of an owner from the command line: the owner is a parameter.
