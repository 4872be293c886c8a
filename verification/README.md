# Verified models of the document and chat services

This project models, in Dafny, the protocols and algorithms the repository's safety rests on, and proves what they
promise over every input, every run and every reachable state. `dafny verify dfyconfig.toml` checks it.

**The durable local document pipeline.** `LocalJobs` is the SQLite job table and `LocalJobStore` its operations.
`ArtifactIndex` and `IndexRebuild` are the two index tables of an artifact file and the batch loop that rebuilds them,
as imperative code. `DocumentPipeline` is the whole pipeline as a step system: catalog rows, artifact files, the holder
of each `document_lock`, and the one worker. Every commit, file operation and read of the cancel flag is its own step,
so another thread, an exception or a crash can fall between any two; `Start` after `Crash` is the restart with
`reconcile_interrupted`. `PipelineSafety` and `PipelineJobs` prove the invariant step by step, over `PipelineFrames`,
which says what one step touches; `PipelineTheorems` draws the results. `PipelineGate` says when an open gate has its file and who opens one; `PipelineRegions` and
`PipelineProgress` give the ranks that make every lock holder let go and every claimed job end; `PipelineRecovery` shows
that undisturbed every recovery case leads to success; `PipelineCancel` follows one cancel through every continuation.

**The streaming status-marker filter** (`MarkerFilter`) is the class with its loops, against a function on the whole
text and against the leftmost regular-expression deletion.

**The chat turn protocol** (`ChatTurns`, `SessionPaging`) is the session's tables under begin, finalize, cancel, stale
recovery and deletion, and cursor paging over the session list.

**Authoritative legal paths** (`LegalPaths`) is the resolver over a graph that may have cycles, and the repair that grafts
a rebuilt forest onto the stored ids.

**Smaller cores**: the greedy context builder and evidence grouping (`ContextBuilder`, `EvidenceGroups`), document access
and account deletion (`AccountDeletion`), the replay tables (`ReplayTables`), the best split (`BestSplit`), and log
rotation (`LogRotation`). `Ordering` and `Wrappers` hold shared definitions.

Four promises turned out to hold only on a condition, and the condition is proved exact:

* The query gate. `delete_document` removes the artifact files before the rows, so a crash or a failed removal can leave
  a document INDEX_READY whose file is gone (`DeletionLeavesGateOpen`, from any open gate). After every run the file
  behind an open gate is there, and complete, if and only if no step of a deletion of that document took it
  (`FileThereIff`); as long as nobody asks to delete the document, it is (`NobodyDeletes`).
* Cancelling. An accepted cancel can be lost in some continuation if and only if the worker is past the attempt's last
  certain checkpoint (`CancelLostIff`). Behind an open gate, or behind the last check of indexing, the worker alone loses
  it (`WindowLoses`); about to fetch a document whose gate is closed, only if another thread opens that gate before the
  fetch (`CancelAtFetch`, `OthersOpen`).
* The filter equals the regular-expression deletion exactly on texts in which every `[STATUS` is closed on its own line
  (`StreamIsDeletion`); on every other text it outputs less.
* Replay. A consumed grant is accepted again exactly when it comes after its expiry, which `consume` does not look at
  (`ConsumedAgainIff`); a device request can be replayed exactly when its timestamp was ahead of the server clock at
  first acceptance (`ReplayRefusedIff`).

Retention is one more: `grant_private` does not look at the user's status, so a grant that lands while the
account is being deleted can retain a document that nobody else ever held and that nothing refers to in the end
(`LateGrantRetains`); in every run without such a grant of it, a retained document was held by others (`RetainedWasHeld`).

The keyset loop also has one: it reaches the whole table exactly when no chunk index is negative (`OrderCovers`), and a
rebuild in which nothing outside fails succeeds exactly then, for a table that is not empty and a batch size that is not
zero (`BuildIndex`).

Assumptions: ids and hashes are injective and never used again; one live worker, as `LocalDocumentPipelineWorker`
intends; whoever indexes with `activate=False` does so on an artifact that is not the active one; the chunker produces at
least one chunk and gives each its own id; the pipeline's batch size is any number from 1 on; a signature check is a
boolean; a vector is opaque with a validity predicate; upper-casing keeps the length of a text; one attempt at a time for
an account-deletion job, which the queue's job id gives.

## Model

| member | source | states |
|---|---|---|
| LocalJobs.LocalJobStore.EnqueuePipeline | app/local_compute/jobs.py:30-90 | the pending job of the document is returned and nothing changes, or one QUEUED job with a new id is added |
| LocalJobs.LocalJobStore.Update | app/local_compute/jobs.py:231-263 | overwrites state, stage, clamped progress and error of one row and no other, keeping the cancel flag |
| LocalJobs.LocalJobStore.AttachArtifact | app/local_compute/jobs.py:265-283 | sets one row's artifact only |
| LocalJobs.LocalJobStore.ClaimNextPipeline | app/local_compute/jobs.py:285-358 | takes an oldest QUEUED pipeline job to RUNNING, or changes nothing when there is none |
| LocalJobs.LocalJobStore.RequestCancel | app/local_compute/jobs.py:360-380 | raises the flag of an active job, moves it to CANCEL_REQUESTED, and tells whether it did |
| LocalJobs.LocalJobStore.CancelForDocument | app/local_compute/jobs.py:398-418 | does that for every active job of a document and counts them |
| LocalJobs.LocalJobStore.ReconcileInterrupted | app/local_compute/jobs.py:420-489 | the whole table is the reconciled table |
| LocalJobs.EnqueueKeeps | app/local_compute/jobs.py:30-90 | enqueueing keeps at most one active pipeline job per document and the flag/state agreement |
| LocalJobs.RowUpdateKeeps | app/local_compute/jobs.py:231-263 | a lawful row update keeps the table's invariant |
| LocalJobs.CancelledForKeeps | app/local_compute/jobs.py:398-418 | cancelling a document keeps the table's invariant and takes no flag or terminal state back |
| LocalJobs.DeletedForKeeps | app/local_compute/documents.py:61-62 | deleting a document's rows keeps the table's invariant |
| LocalJobs.ReconcileSettles | app/local_compute/jobs.py:420-489 | afterwards every row is QUEUED or terminal, a cancelled in-flight job is CANCELLED and never queued again, flags and terminal states stay |
| ArtifactIndex.PageIsNextSlice | app/local_compute/indexing.py:311-327 | behind a processed prefix the keyset query returns exactly the next rows in order |
| ArtifactIndex.AppendAdvances | app/local_compute/indexing.py:379-449 | a committed batch extends the indexed prefix by exactly its page, no row twice |
| ArtifactIndex.OrderCovers | app/local_compute/indexing.py:299-330 | the loop starting behind -1 reaches the whole table if and only if no chunk index is negative |
| ArtifactIndex.FullPrefixIsComplete | app/local_compute/indexing.py:468-490 | a full prefix passes validation and has exactly one valid embedding row and one lexical row per chunk |
| IndexRebuild.ArtifactDatabase.InitializeIndexTables | app/local_compute/indexing.py:625-697 | empties both tables and marks the rebuild |
| IndexRebuild.ArtifactDatabase.SelectPage | app/local_compute/indexing.py:311-327 | the rows above a key in ascending order, up to the limit (none for a negative one) |
| IndexRebuild.ArtifactDatabase.ReusableVectors | app/local_compute/indexing.py:926-965 | nothing when none is asked for, an error for a missing file or, exactly, an invalid stored vector; otherwise every text maps to a vector stored for it |
| IndexRebuild.ArtifactDatabase.JoinedVectors | app/local_compute/indexing.py:946-965 | the vectors of one file, or an error exactly when one is invalid |
| IndexRebuild.ArtifactDatabase.Encode | app/local_compute/indexing.py:341-363 | one vector per input or an error |
| IndexRebuild.ArtifactDatabase.SplitReusable | app/local_compute/indexing.py:332-339 | the rows still to embed, in order, and their number |
| IndexRebuild.ArtifactDatabase.GatherVectors | app/local_compute/indexing.py:332-373 | every row gets a vector, reused ones unchanged; with a pointwise embedder the vector of its own text |
| IndexRebuild.ArtifactDatabase.ZipVectors | app/local_compute/indexing.py:365-370 | new vectors under their own chunk ids, the others untouched |
| IndexRebuild.ArtifactDatabase.InsertPage | app/local_compute/indexing.py:379-443 | all rows of the page in both tables, or, if one vector is invalid, the tables as they were |
| IndexRebuild.ArtifactDatabase.IndexBatch | app/local_compute/indexing.py:306-449 | one turn advances the rebuild by its page or fails without going wrong |
| IndexRebuild.ArtifactDatabase.BuildIndex | app/local_compute/indexing.py:219-518 | terminates for every batch size; success means a complete table and reused plus generated equal to the total; exact condition for success when nothing outside fails |
| IndexRebuild.ArtifactDatabase.IndexDocument | app/local_compute/indexing.py:106-623 | success means a finished table marked INDEX_READY; a failure is marked as such when the best-effort write works, and otherwise leaves the file as it was or marked as being rebuilt |
| IndexRebuild.RebuiltTableUnique | app/local_compute/indexing.py:299-490 | a finished rebuild with a pointwise embedder has one possible table, whatever the batch size |
| IndexRebuild.ReuseIsInvisible | app/local_compute/indexing.py:259-339 | indexing with lawfully reused vectors gives the same tables as indexing with none, and the counts add up in both |
| IndexRebuild.ReusedAgree | app/local_compute/indexing.py:926-965 | vectors taken from an artifact finished with the same embedder are lawful to reuse |
| PipelineSafety.NotShown | app/local_compute/indexing.py:203-217 | while an artifact's tables are rebuilt no document shows it through an open gate |
| PipelineSafety.AppendStores | app/local_compute/indexing.py:379-443 | the batch transaction keeps the two-store invariant |
| PipelineSafety.OpenGateStores | app/local_compute/indexing.py:520-546 | the gate opens only over a complete index |
| PipelineSafety.RestoreFileStores | app/local_compute/indexing.py:868-924 | the best-effort reset keeps an open gate truthful |
| PipelineSafety.ActivateStores | app/local_compute/indexing.py:61-104 | activating another finished artifact keeps the invariant |
| PipelineSafety.PrepStores | app/local_compute/preparation.py:99-525 | every step of preparation, its failures and its promotion keep the invariant |
| PipelineSafety.DeleteStores | app/local_compute/documents.py:49-66 | every step of a deletion, even one half done, keeps the invariant |
| PipelineSafety.CloseGateAnywhere | app/local_compute/pipeline.py:246-263 | recovery case 2 resets the gate without the lock and disturbs no region |
| PipelineSafety.StepStores | app/local_compute/indexing.py:106-623 | every step of every thread, and a crash, keep the two-store invariant |
| PipelineJobs.WorkerRegionThreads | app/local_compute/indexing.py:699-749 | inside preparation or indexing the worker changes only its own job, lawfully |
| PipelineJobs.WorkEndThreads | app/local_compute/pipeline.py:320-376 | however `_process` ends, the job is terminal or its row is gone |
| PipelineJobs.StepThreads | app/local_compute/pipeline.py:113-376 | every step keeps the job and worker invariant and takes no flag or terminal state back |
| PipelineTheorems.StepInv | app/local_compute/pipeline.py:113-376 | the invariant is inductive |
| PipelineTheorems.RunInv | app/local_compute/pipeline.py:68-163 | it holds after every run, crashes and restarts included |
| PipelineTheorems.QueryGate | app/local_compute/indexing.py:486-546 | an INDEX_READY document has an active artifact of its own; its file is there if and only if no deletion removed it, and then holds exactly one validated row per chunk in both tables |
| PipelineTheorems.ArtifactMark | app/local_compute/indexing.py:492-515 | an artifact file that says INDEX_READY is complete, active or not |
| PipelineTheorems.DeletionLeavesGateOpen | app/local_compute/documents.py:56-64 | from every open gate a deletion and a crash lead to an open gate over a removed file |
| PipelineTheorems.JobTable | app/local_compute/jobs.py:30-90 | reachable tables: one active pipeline job per document, QUEUED without the flag, CANCEL_REQUESTED with it, full progress exactly when terminal |
| PipelineTheorems.RunMonotone | app/local_compute/jobs.py:231-263 | over every run the flag is never cleared and a terminal state never left, although `update` is unguarded; a deleted row never returns |
| PipelineTheorems.ProcessedJobsSettle | app/local_compute/pipeline.py:165-376 | a job the worker is done with is terminal or deleted; a RUNNING row is in the worker's hands |
| PipelineTheorems.RestartSettles | app/local_compute/pipeline.py:74-88 | after a restart every job is QUEUED or terminal, and an interrupted one is queued again exactly when nobody cancelled it |
| PipelineGate.FileThereIff | app/local_compute/documents.py:56-58 | after every run, the file behind an open gate is there and complete if and only if no step of a deletion took it |
| PipelineGate.UndeletedIsQueryable | app/local_compute/documents.py:56-58 | with no deletion of the document reaching its files since the active artifact was registered, INDEX_READY means a complete file |
| PipelineGate.NobodyDeletes | app/local_compute/documents.py:49-66 | the same while nobody asks to delete the document |
| PipelineGate.GateStaysClosed | app/local_compute/indexing.py:520-546 | only the end of an activating rebuild and an activation open a gate |
| PipelineCancel.StepDoomed | app/local_compute/jobs.py:382-396 | no step rescues a cancelled job that still has a checkpoint ahead |
| PipelineCancel.CancelNeverLost | app/local_compute/indexing.py:474-476 | a cancel accepted before the attempt's last checkpoint never ends in SUCCEEDED, through overwriting updates, crashes, restarts and new attempts |
| PipelineCancel.CancelAtFetch | app/local_compute/pipeline.py:188-222 | a cancel accepted before the fetch of a document with a closed gate is not lost unless somebody else opens the gate before the fetch |
| PipelineCancel.OthersOpen | app/local_compute/api.py:774-849 | while the worker waits, other threads can prepare, index and open the document |
| PipelineCancel.CancelLostIff | app/local_compute/pipeline.py:188-199 | some continuation loses an accepted cancel if and only if the worker is past the last certain checkpoint |
| PipelineCancel.WindowMoves | app/local_compute/indexing.py:478-553 | behind the last checkpoint the worker's next step is enabled and comes closer to SUCCEEDED |
| PipelineCancel.WindowLoses | app/local_compute/pipeline.py:188-244 | from every point of that window a continuation ends with the cancelled job SUCCEEDED |
| PipelineRegions.HolderAdvances | app/local_compute/catalog.py:22-27 | every step of whoever holds a document lock, a deletion included, lowers a rank of its region |
| PipelineRegions.HolderUndisturbed | app/local_compute/catalog.py:22-27 | no step of anybody else, short of a crash, changes that rank |
| PipelineProgress.WorkerAdvances | app/local_compute/pipeline.py:165-376 | each step of the worker lowers a well-founded rank, whatever the recovery case or failure |
| PipelineProgress.OthersWait | app/local_compute/catalog.py:22-27 | no step of another thread changes that rank |
| PipelineProgress.WorkerCanMove | app/local_compute/pipeline.py:113-163 | a busy worker has a step unless it waits for a lock |
| PipelineProgress.HolderFinishes | app/local_compute/catalog.py:22-27 | the holder of a lock can finish by its own steps, the worker's rank unchanged |
| PipelineProgress.WorkerHoldsOrSettles | app/local_compute/pipeline.py:135-163 | a step of the worker keeps the job or settles it; only a failing containment lets it escape |
| PipelineProgress.JobCanEnd | app/local_compute/pipeline.py:113-376 | from every reachable world with a job in hand a finite run without crash or restart leads to an idle worker with the job terminal or deleted |
| PipelineProgress.ClaimedJobEnds | app/local_compute/pipeline.py:113-376 | in every run without crash or restart the worker's steps are bounded, and a job it let go is terminal or deleted unless containment failed |
| PipelineProgress.WorkerComesToRest | app/local_compute/pipeline.py:113-163 | no endless execution without crash or restart keeps the worker busy |
| PipelineRecovery.StepGoes | app/local_compute/pipeline.py:165-318 | on the way to success every undisturbed step of the worker leads on or to the end |
| PipelineRecovery.TrackCanGo | app/local_compute/pipeline.py:165-318 | and there always is one |
| PipelineRecovery.EveryRunSucceeds | app/local_compute/pipeline.py:201-318 | from whatever state the document was left in, every undisturbed run over an uncancelled job, with any chunk tables from zero and any fitting vectors, that cannot go on ended SUCCEEDED and INDEX_READY, in each of the four recovery cases |
| PipelineRecovery.RecoverySucceeds | app/local_compute/pipeline.py:201-318 | and there is such a run, of finitely many steps |
| MarkerFilter.StreamingMarkerFilter.Find | app/generation/answerability.py:86-87 | the first START, ignoring case, or -1 |
| MarkerFilter.StreamingMarkerFilter.FindClose | app/generation/answerability.py:90-90 | the first closing bracket behind a START, or -1 |
| MarkerFilter.StreamingMarkerFilter.Retained | app/generation/answerability.py:97-102 | the longest proper prefix of START at the end of the text |
| MarkerFilter.StreamingMarkerFilter.Feed | app/generation/answerability.py:81-109 | output and new pending buffer are those of the filter function on the old buffer and the value |
| MarkerFilter.StreamingMarkerFilter.Finish | app/generation/answerability.py:111-114 | flushes what is no marker and empties the buffer |
| MarkerFilter.FilterConcat | app/generation/answerability.py:81-109 | filtering in two parts is filtering the whole: what the first part keeps back is all the second needs |
| MarkerFilter.PendingStable | app/generation/answerability.py:81-109 | a kept-back buffer filters to itself |
| MarkerFilter.ChunkInvariance | app/generation/answerability.py:73-114 | output and pending buffer after every feed are those of the unsplit text, for every text and every split |
| MarkerFilter.StreamVersusDeletion | app/generation/answerability.py:10-10 | the stream equals the deletion on well-closed text and is strictly shorter on all other |
| MarkerFilter.StreamIsDeletion | app/generation/answerability.py:10-114 | for every chunking: stream equals regular-expression deletion if and only if every START is closed on its line |
| LegalPaths.LocalArtifactLegalPathResolver.constructor | app/local_compute/legal_paths.py:96-114 | stored units as they are when all are sane, the repaired graph or nothing otherwise |
| LegalPaths.LocalArtifactLegalPathResolver.ReplaceWithReconstructedUnits | app/local_compute/legal_paths.py:184-233 | the units are those of the repair function; no lookup of a parent can fail |
| LegalPaths.LocalArtifactLegalPathResolver.PathForUnit | app/local_compute/legal_paths.py:156-182 | terminates on every graph with the path of the climb |
| LegalPaths.LocalArtifactLegalPathResolver.FindCategory | app/local_compute/legal_paths.py:167-173 | the innermost category of a path |
| LegalPaths.LocalArtifactLegalPathResolver.Resolve | app/local_compute/legal_paths.py:120-130 | for a stored or a runtime id: nothing for none, an unavailable path for an unknown one, the path otherwise |
| LegalPaths.ClimbWalks | app/local_compute/legal_paths.py:157-164 | on any graph: a walk along parents, no unit twice, ended only by a missing or repeated unit |
| LegalPaths.PathExtendsParent | app/local_compute/legal_paths.py:156-182 | on an acyclic graph a path is the parent's path and the unit, a preamble adding nothing |
| LegalPaths.ParentsAreKnown | app/local_compute/legal_paths.py:192-221 | every rebuilt parent key is a key of the rebuilt units |
| LegalPaths.StepUp | app/local_compute/legal_paths.py:211-226 | one parent link of the grafted graph stands for one link of the forest |
| LegalPaths.RepairSimulates | app/local_compute/legal_paths.py:184-233 | with unique signatures every id that stands for a place, old or runtime, resolves to exactly that place's labels |
| LegalPaths.CategorySimulates | app/local_compute/legal_paths.py:167-173 | the category root stands for the place's innermost category |
| LegalPaths.KnownIdResolves | app/local_compute/legal_paths.py:184-233 | an id, stored or runtime, resolves after repair if and only if some place has its signature, and then to that place's labels and category |
| ChatTurns.SameHash | app/chat/service.py:62-69 | two requests have the same hash if and only if the stripped query and the document ids as a bag agree |
| ChatTurns.ChatHistoryService.RecoverStale | app/chat/service.py:362-384 | fails the active turn and its streaming answer when its activity is before the cutoff, else changes nothing |
| ChatTurns.ChatHistoryService.GetSession | app/chat/service.py:122-139 | opening a session commits stale recovery |
| ChatTurns.ChatHistoryService.DeleteSession | app/chat/service.py:207-226 | refuses while a turn is active after recovery and rolls back, else removes everything |
| ChatTurns.ChatHistoryService.BeginTurn | app/chat/service.py:228-325 | the new rows, the resolved turn, or a refusal with the recovery rolled back |
| ChatTurns.ChatHistoryService.ResolveExisting | app/chat/service.py:327-345 | the answer for a known client_turn_id by the state of its turn |
| ChatTurns.ChatHistoryService.FinalizeTurn | app/chat/service.py:444-503 | completes a streaming turn with its answer, else refuses and changes nothing |
| ChatTurns.ChatHistoryService.MarkTerminal | app/chat/service.py:543-566 | ends an active turn and its answer, else changes nothing |
| ChatTurns.MessagesAlternate | app/chat/service.py:258-289 | messages are numbered 1..2n, USER and ASSISTANT alternate, each turn owns its two |
| ChatTurns.RecoverExact | app/chat/service.py:362-384 | recovery fails exactly the active and stale turn and keeps what its answer held |
| ChatTurns.BeginDelivers | app/chat/service.py:256-298 | a new turn is the last, asks the stripped question, waits for its answer; earlier rows are those recovery left |
| ChatTurns.FinalizeDelivers | app/chat/service.py:444-503 | succeeds exactly on an active turn with valid citations, delivering that answer to that turn and touching nothing else |
| ChatTurns.TerminateDelivers | app/chat/service.py:543-566 | the asked state, the partial text if one is given, and nothing else |
| ChatTurns.AnswerArrives | app/chat/service.py:228-503 | a new turn's question and its finalized answer are what the session shows at any later time, whatever happens in between |
| ChatTurns.StepKeeps | app/chat/service.py:207-566 | every transaction keeps the session invariant: one active turn, turn and answer states corresponding, distinct client ids |
| ChatTurns.RunKeeps | app/chat/service.py:207-566 | after every interleaving the invariant holds and what had ended is unchanged |
| ChatTurns.ReachableOk | app/chat/service.py:228-566 | every reachable session satisfies the invariant |
| ChatTurns.RetryAddsNothing | app/chat/service.py:238-242 | reusing a client_turn_id at any later time adds no row and answers by the first turn; with another request it changes nothing |
| ChatTurns.NewTurnAdmitted | app/chat/service.py:237-254 | a new turn is admitted if and only if every active one is stale |
| ChatTurns.EndedForGood | app/chat/service.py:444-566 | after a turn ended, finalize and cancellation change nothing, at any later time |
| ChatTurns.EndsOnce | app/chat/service.py:362-566 | in every run a turn ends at most once, and exactly once when it is over at the end |
| SessionPaging.ListSessions | app/chat/service.py:141-194 | the page behind the cursor with a limit clamped to 1..max, and a next cursor exactly when more rows follow |
| SessionPaging.NextIsBehind | app/chat/service.py:172-177 | what is behind the next cursor is what follows the page |
| SessionPaging.FollowingShowsAll | app/chat/service.py:141-194 | following the cursor shows every visible session exactly once, strictly descending by (time, id), for every limit, and ends |
| EvidenceGroups.DeduplicateCandidates | app/context/dedup.py:15-35 | keeps the candidates no earlier one has the key of and counts the others |
| EvidenceGroups.KeptCovers | app/context/dedup.py:20-33 | deduplication loses no key |
| EvidenceGroups.KeptDistinct | app/context/dedup.py:20-33 | no two kept candidates have the same key |
| EvidenceGroups.WithCategoryKeys | app/context/service.py:212-237 | every root is numbered by its first appearance |
| EvidenceGroups.KeysMirrorRoots | app/context/service.py:212-237 | category keys are equal if and only if category roots are; nothing else changes |
| EvidenceGroups.GroupEvidence | app/context/formatter.py:77-88 | one group a key in order of first appearance, each with all its items in their order |
| EvidenceGroups.GroupingPermutes | app/context/formatter.py:77-88 | flattening the groups permutes the evidence |
| EvidenceGroups.SameGroup | app/context/formatter.py:64-88 | two items share a group if and only if both resolve to the same document and unit; unresolved items stay alone |
| EvidenceGroups.GroupsByAppearance | app/context/formatter.py:81-88 | groups stand in the order of their first items |
| ContextBuilder.ContextBuilderService.Build | app/context/service.py:39-210 | exact count within the budget; the selection is the prefix up to the first that does not fit; exhausted exactly when something was left; fails only for a bad budget, or when nothing fits and the empty text counts |
| ContextBuilder.ContextBuilderService.Select | app/context/service.py:76-143 | the greedy loop selects exactly the admitted prefix |
| ContextBuilder.ContextBuilderService.Present | app/context/service.py:157-167 | the grouped text exactly when more than one is selected and it counts no more |
| ContextBuilder.ContextBuilderService.FormatGroupedEvidence | app/context/formatter.py:77-112 | joins the groups, a heading over groups of several items with a path |
| ContextBuilder.BudgetExtends | app/context/service.py:101-114 | a larger budget only extends the selection |
| AccountDeletion.AccessStore.GrantPrivate | app/auth/access.py:46-52 | adds the grant once if document and user exist |
| AccountDeletion.AccessStore.GrantGlobal | app/auth/access.py:54-60 | adds global access once |
| AccountDeletion.AccessStore.RevokePrivate | app/auth/access.py:62-74 | removes that grant and tells whether the document is orphaned |
| AccountDeletion.AccessStore.RevokeFromLibrary | app/auth/access.py:76-100 | the caller's own grant first, a global one only for an administrator |
| AccountDeletion.AccessStore.RevokeGlobal | app/auth/access.py:102-112 | removes global access and tells whether the document is orphaned |
| AccountDeletion.AccessStore.CollectCanonicalDocument | app/auth/worker.py:36-57 | removes a document exactly when nothing refers to it |
| AccountDeletion.AccessStore.RequestAccountDeletion | app/auth/service.py:120-152 | one open job with the snapshot of granted documents, for an active user |
| AccountDeletion.AccessStore.ProcessAccountDeletion | app/auth/worker.py:85-150 | an undisturbed attempt is a run of the steps and ends COMPLETED, or FAILED if a collection raised |
| AccountDeletion.StepKeeps | app/auth/worker.py:85-150 | every transaction, failure and kill keeps the invariant |
| AccountDeletion.CollectTakesOne | app/auth/worker.py:36-57 | says gone exactly when the document is, and removes that one row exactly when nothing refers to it |
| AccountDeletion.RemovedOnlyUnreferenced | app/auth/worker.py:36-57 | a document row goes only without any grant, and takes none along |
| AccountDeletion.ReachableSafe | app/auth/worker.py:85-150 | no grant dangles; one open job per user; a COMPLETED job leaves no grant of the user and every snapshotted document gone or RETAINED_REFERENCED |
| AccountDeletion.RunFollows | app/auth/worker.py:85-150 | a job keeps its user and snapshot, and never changes once COMPLETED |
| AccountDeletion.SnapshotIsErased | app/auth/service.py:137-147 | the snapshot is what was granted at the request, and completion accounts for each of it |
| AccountDeletion.OthersKeepGrants | app/auth/worker.py:103-107 | deleting an account takes no grant from anybody else |
| AccountDeletion.RetainedWasHeld | app/auth/worker.py:109-122 | over every run in which the deleted user is not granted the document while the account is being deleted, a document marked RETAINED_REFERENCED was at some point granted globally or to somebody else |
| AccountDeletion.LateGrantRetains | app/auth/access.py:46-52 | a run in which a grant to the user being deleted retains a document nobody else ever held and nothing refers to after completion |
| AccountDeletion.RetryCompletes | app/auth/worker.py:85-150 | from every state an undisturbed attempt completes the job |
| ReplayTables.LocalDocumentCatalog.ConsumeLocalGrant | app/local_compute/catalog.py:199-206 | prunes, then inserts or refuses |
| ReplayTables.PruningIsInvisible | app/local_compute/catalog.py:199-206 | the verdicts of a set that never forgets, when every consume comes by its expiry |
| ReplayTables.GrantConsumedOnce | app/local_compute/grants.py:294-316 | a grant is consumed in time at most once |
| ReplayTables.ConsumedAgainIff | app/local_compute/grants.py:275-316 | a consumed grant is accepted again if and only if it comes after the expiry |
| ReplayTables.ComputeControlService.DeviceAuth | app/compute_control.py:62-75 | the checks in order; a refusal leaves the nonce table as it was |
| ReplayTables.ComputeControlService.Revoke | app/compute_control.py:110-114 | only the owner; a device already revoked stays as it is |
| ReplayTables.NoncePruningIsInvisible | app/compute_control.py:62-75 | over every run of requests and revocations, the verdicts of a nonce set that never forgets, when no accepted timestamp is ahead |
| ReplayTables.ReplayRefusedIff | app/compute_control.py:67-75 | a replay is refused at every later time if and only if the timestamp was not ahead at first acceptance |
| ReplayTables.ReplayStaysRefused | app/compute_control.py:67-75 | and whatever requests and revocations come in between |
| ReplayTables.EpochMovesOnce | app/compute_control.py:110-114 | over every run the epoch moves once at most, exactly when the device becomes revoked |
| ReplayTables.RevokedStaysOut | app/compute_control.py:62-75 | after its owner revoked it, no later request of a device is accepted, whatever comes in between |
| BestSplit.DiagnosticCutoff | evaluation/deep_dive.py:182-203 | accuracy at least that of every real cutoff, the first of the best candidates; fails exactly on a missing score or an empty class |
| BestSplit.CandidateAsGood | evaluation/deep_dive.py:185-187 | every real cutoff splits as some candidate does |
| LogRotation.LocalAuditLog.RotateIfNeeded | app/local_compute/audit_log.py:20-29 | killed before any operation, reading the backups and the file gives what it gave or that without the oldest backup |
| LogRotation.LocalAuditLog.Write | app/local_compute/audit_log.py:120-127 | the reading stays a suffix of everything written and the backups within their count; a written line comes last |
| LogRotation.RenameIsInvisible | app/local_compute/audit_log.py:25-29 | moving a file into the free slot above changes nothing for a reader |
| LogRotation.DropTop | app/local_compute/audit_log.py:23-24 | removing the oldest drops exactly its lines from the front |

## Left out

- The pipeline worker, preparation and locked regions are a step system on values, not objects: `_thread`, `_stop_event` and the polling are the worker's position, and a region is how far the lock's holder is. The batch loop of indexing is the imperative code in `IndexRebuild`.
- Preparation is its sequence of commits, checkpoints and progress reports; extraction, reconstruction, the legal parser, the chunker and the staging files' contents are not part of this model.
- Job rows of direct calls to preparation and indexing (without a pipeline job) are not in the pipeline's job table; their stores are.
- `force_reindex` and the enqueue behind it are two steps, so more interleavings are covered than the lock allows.
- Fair handing over of a lock: the worker may wait for ever if other threads keep taking the document's lock before it.
- PipelineProgress.ClaimedJobEnds: the bound grows with the largest chunk table of the run, since a table of any size may be prepared.
- Timestamps of job and document rows, and the deletion manifest sent to the control plane.
- Float arithmetic of vectors and their norms: a vector is valid or not.
- `strip_internal_markers`, `parse_answerability` and `resolved_prefix`: easy string functions beside the filter.
- Unicode upper-casing that changes the length of a text, and the letters outside ASCII that match case-insensitively.
- The sanity check on persisted units (its regular expressions) is an arbitrary predicate; `resolve_for_span` is not modelled.
- RepairSimulates: asks for non-empty stored ids that are primary keys, as the artifact writer makes them; a unit stored under the empty id would be taken for the parent of every root.
- Chat: session titles, document scope, citation snapshots, usage figures, and the database-constraint errors that the row lock keeps from happening.
- Strip: white space is blank, tab, CR and LF.
- Session rows carry no message count or preview, and the cursor's encoding is a constructor.
- Input validation of the context builder before its budget check, logging, timings and utilization.
- Object storage, tombstones, chat rows, sessions and barriers of account deletion; deleting a missing stored object is harmless there.
- Pairing, presence, manifests and the other checks of a local grant before its expiry.
- LogRotation.LocalAuditLog.RotateIfNeeded: for a backup count of 0 the code still keeps one backup, and the model says so.
- SQL engines, HTTP, queues, transports, packaging, evaluation runners and scripts.
