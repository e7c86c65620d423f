# A verified model of the persona gateway

This project models the gateway of `python-backend` as state machines over its database tables and proves what its
protocols promise, over every run.

- **Chat generations.** Many gateway processes accept, stream, cancel, retry, extend, reclaim, release and crash over one
  table of generations. `Generations` holds the row and its updates, `ChatTables` the transactions, `ChatInvariant` what
  they keep, `ChatStore` the store as a class whose methods are proved to be those transactions.
- **Drafts, index runs, activation, deletion.** `Materials` and `MaterialInvariant`, the proofs in `PersonaSteps`,
  `DraftSteps` and `IndexSteps`, the store as a class in `PersonaStore`, deletion across both stores in `Gateway`.
- **Runs.** `Runs` interleaves all transactions of all processes; the theorems over runs are in `RowHistory`,
  `MaterialHistory`, `Activation`, `Deletion`, `Idempotency`, `RetryChain`, `CrashRecovery`, `LeaseSafety` and
  `LeaseBounds`. `FirstQuestion` is a concrete run to an accepted question, from which statements that something can
  happen start.
- **Streaming.** `Upstream` reads the server-sent events of the model server and holds the table of attempts, `Stream`
  interleaves generator, worker thread, the coroutines of the response, the threads that run their calls, cancel requests
  and everybody else, `StreamProofs`, `StreamTheorems` and `StreamEndings` hold the proofs, `StreamObjects` the generator,
  the owner and the heartbeat as classes.
- **Text.** `Text`, `Chunker`, `ChunkerProofs`, `PromptEscape`, `Prompt`.
- **Login.** `Login`.

How to read the model: a database transaction is one step, a function from tables to tables, and a transaction that raises
leaves them as they were. `now` is the time the database gives a transaction, `wall` the clock of a process. Identifiers
from `uuid4` are arguments, and `drawn` is the set of those already used: a step that draws one twice is refused. An index
run is a job in the tables, which holds its persona's advisory lock until it is released or its process dies. A crash is
the absence of further steps.

Where the code and its own description differ, the code is modelled. The comment on the lease check reads as if one failed
extension could never expire a lease: with the shortest lease it admits, that holds if and only if the delays of the whole
stretch sum to at most one database timeout (`LeaseBounds.ShortestLeaseIsExact`). The comment on the stream's owner promises
that the cleanup leaves no row running: for a row that was live this fails exactly when nothing was sent, because a
generator that was closed before its first event has no handler
(`StreamEndings.LiveAfterwardsExactlyWhenNothingSent`). Deadlines of a stream are looked at only when its queue is empty,
so there is no hard limit of 180 seconds. The safety net of a stream stores empty content, whatever was sent before. A retry accepts a completed original too.

## Model

| member | source | states |
|---|---|---|
| ChatStores.ChatStore.CreateConversation | python-backend/src/persona_minimal_api/chat/repository.py:340-432 | replay or conflict by key first, then the persona and its active version; a conversation with the version of that moment and its record, or nothing |
| ChatStores.ChatStore.ReplayBeforeReclaim | python-backend/src/persona_minimal_api/chat/repository.py:894-936 | the first transaction of an accept: replay, conflict, or None for a new key or an unknown user; writes nothing |
| ChatStores.ChatStore.ReclaimUserExpired | python-backend/src/persona_minimal_api/chat/repository.py:938-967 | exactly the user's rows whose lease ran out (or that have no owner and are stale) become reconciling, with the lease deadline as heartbeat; counted |
| ChatStores.ChatStore.ReclaimExpired | python-backend/src/persona_minimal_api/chat/repository.py:871-892 | the same for the rows of all users at startup |
| ChatStores.ChatStore.RejectOrResolveActive | python-backend/src/persona_minimal_api/chat/repository.py:704-744 | the slot check: passes iff the newest active row does not exist or is abandoned, which it then closes as reconciliation_timeout; a refusal changes nothing |
| ChatStores.ChatStore.AcceptInTransaction | python-backend/src/persona_minimal_api/chat/repository.py:599-702 | the main transaction of an accept, branch by branch; every refusal rolls back what the slot check wrote |
| ChatStores.ChatStore.StampOwner | python-backend/src/persona_minimal_api/chat/repository.py:321-338 | owner and lease deadline are written together |
| ChatStores.ChatStore.CreateGenerationQueued | python-backend/src/persona_minimal_api/chat/repository.py:576-702 | three transactions, with any transactions of others after the first and after the second: a replay or conflict seen first leaves every table alone; otherwise the result is that of the main transaction on the state which the others, the reclaim and the others again have made of the one it began in |
| ChatStores.ChatStore.RetryInTransaction | python-backend/src/persona_minimal_api/chat/repository.py:1062-1172 | the main transaction of a retry: terminal original with frozen input, newest message, newest attempt, free slot; the new attempt runs at once with the original's version and input |
| ChatStores.ChatStore.CreateRetryGeneration | python-backend/src/persona_minimal_api/chat/repository.py:1047-1172 | the same three transactions for a retry, reclaim and others included |
| ChatStores.ChatStore.MarkGenerationRunning | python-backend/src/persona_minimal_api/chat/repository.py:781-806 | only a queued row becomes running, with its input frozen and a new lease; any other row is untouched |
| ChatStores.ChatStore.FinishGeneration | python-backend/src/persona_minimal_api/chat/repository.py:808-848 | a live row is stored with the computed outcome, or as cancelled when a cancel was requested; any other row is returned as it is; None when it is gone |
| ChatStores.ChatStore.MarkGenerationReconciling | python-backend/src/persona_minimal_api/chat/repository.py:850-869 | a live row becomes reconciling and is counted as a disconnect, exactly when the answer is true |
| ChatStores.ChatStore.RequestCancel | python-backend/src/persona_minimal_api/chat/repository.py:1015-1045 | only the user's own queued or running row becomes cancel_requested, with a new heartbeat |
| ChatStores.ChatStore.ExtendOwnLeases | python-backend/src/persona_minimal_api/chat/repository.py:969-990 | the leases of exactly the instance's live rows are renewed, and those rows are returned with their status |
| ChatStores.ChatStore.ReleaseOwnGenerations | python-backend/src/persona_minimal_api/chat/repository.py:992-1013 | exactly the instance's live rows become reconciling; counted |
| ChatStores.ChatStore.LoadHistory | python-backend/src/persona_minimal_api/chat/repository.py:541-572 | the history is made of messages of the tables, oldest first, each with its newest completed answer, and misses no answered earlier message unless it is full and that one is not newer |
| ChatStores.DialogueIsHistory | python-backend/src/persona_minimal_api/chat/repository.py:546-566 | whatever rows the query may return, reversing and flattening them gives such a history |
| ChatStores.DialogueIsExchanges | python-backend/src/persona_minimal_api/chat/repository.py:566-572 | whatever rows the query returns, the history alternates user and assistant and is twice as long |
| ChatStores.ChatStore.ChatIsBusy | python-backend/src/persona_minimal_api/repository.py:1301-1316 | some generation of the persona holds a slot |
| ChatStores.ChatStore.DeleteChatRecords | python-backend/src/persona_minimal_api/repository.py:1318-1357 | the persona's conversations with their messages, generations and idempotency records go, nothing else; nothing at all when there is no conversation |
| Gateway.DeletePersona | python-backend/src/persona_minimal_api/repository.py:1203-1316 | user, replay by key, living persona, index lock, processing version, active generation, in this order; then both groups of tables are cleared together, otherwise nothing is written |
| ChatInvariant.AcceptKeepsInv | python-backend/src/persona_minimal_api/chat/repository.py:576-702 | an accept keeps the invariant of the chat tables: foreign keys, records that point to their results, one slot a user, identifiers drawn once |
| ChatInvariant.RetryKeepsInv | python-backend/src/persona_minimal_api/chat/repository.py:1047-1172 | a retry keeps it |
| ChatInvariant.SlotCheckFrees | python-backend/src/persona_minimal_api/chat/repository.py:704-744 | after a passed slot check the user holds no slot, although the check read only the newest active row |
| ChatInvariant.DeleteChatKeepsInv | python-backend/src/persona_minimal_api/repository.py:1318-1357 | clearing a persona's chats keeps it, and leaves no conversation with the persona |
| Runs.RunsKeepInv | python-backend/src/persona_minimal_api/chat/repository.py:576-1172 | every state of every interleaving of transactions on persona and chat tables satisfies both invariants |
| RowHistory.OneActiveGeneration | python-backend/src/persona_minimal_api/chat/repository.py:704-744 | in every reachable state each user has at most one generation in an active status |
| RowHistory.RowsOnlyMove | python-backend/src/persona_minimal_api/chat/repository.py:781-1045 | between any two points of a run a row only moves up queued, running, cancel_requested, reconciling, terminal; every change of status raises the rank, terminal rows are frozen, a forsaken row stays so, the input of a row that left the queue is fixed |
| RowHistory.GoneForGood | python-backend/src/persona_minimal_api/repository.py:1345-1357 | a deleted generation never comes back |
| RowHistory.CancelIsNeverLost | python-backend/src/persona_minimal_api/chat/repository.py:781-848 | after cancel_requested (or reconciling) a row is never running or completed, in any continuation of the run |
| RowHistory.CountersCountReconciling | python-backend/src/persona_minimal_api/chat/service.py:300-307 | over all instances the number of generations that ever entered reconciling is the disconnect counter plus the reclaim counter |
| Idempotency.SameKeySameGeneration | python-backend/src/persona_minimal_api/chat/repository.py:576-702 | requests with one key, questions or retries, answered by their first transaction or after their main one, in any order and interleaved with anything: all that succeed asked for the same and return the same generation |
| Idempotency.InsertsOnce | python-backend/src/persona_minimal_api/chat/repository.py:599-702 | in a whole run at most one main transaction inserts for a key |
| Idempotency.AtMostOneRow | python-backend/src/persona_minimal_api/chat/repository.py:576-702 | all main transactions with one key together insert at most one generation and at most one user message, over a whole run |
| Idempotency.SuccessReturnsTheInserted | python-backend/src/persona_minimal_api/chat/repository.py:576-702 | and every request with the key that succeeds returns exactly that generation |
| Idempotency.OneRecordPerKey | python-backend/src/persona_minimal_api/chat/repository.py:894-936 | wherever in a run a key is recorded, it is recorded the same |
| Idempotency.OneGenerationPerKey | python-backend/src/persona_minimal_api/chat/repository.py:599-702 | of two accepts with one key the second that reaches its main transaction and succeeds returns the generation of the first and changes nothing |
| Idempotency.OneRetryPerKey | python-backend/src/persona_minimal_api/chat/repository.py:1062-1172 | the same for the main transactions of two retries |
| Idempotency.RecordsAreRemembered | python-backend/src/persona_minimal_api/repository.py:1318-1357 | a completion or retry record stays as it was written as long as its conversation exists, and a conversation that is gone stays gone |
| CrashRecovery.NoEarlyReclaim | python-backend/src/persona_minimal_api/chat/repository.py:68-81 | a row whose owner died after stamping it at s stays live under that lease until a reclaim runs later than s plus the lease, whatever others do (or it is given up after a user cancel) |
| CrashRecovery.OrphanAlong | python-backend/src/persona_minimal_api/chat/repository.py:55-66 | an ownerless row is live under its last lease, or reconciling with that deadline as heartbeat, or timed out, however many reclaims there were |
| CrashRecovery.SlotCheckGivesUp | python-backend/src/persona_minimal_api/chat/repository.py:704-744 | more than 300 seconds after the deadline the slot check closes exactly this row |
| CrashRecovery.CrashedOwnerGivesWay | python-backend/src/persona_minimal_api/chat/repository.py:704-967 | a question or retry of the user that reclaims after the deadline and checks the slot more than 300 seconds after it finds the row closed as reconciliation_timeout, or closes it and gets the slot |
| LeaseSafety.StampOutlivesStretch | python-backend/src/persona_minimal_api/config.py:142-155 | general form: with at most k failed beats in between, a lease of k + 1 intervals plus the summed database delays covers the time to the end of the next beat |
| LeaseSafety.LiveOwnerKeepsRow | python-backend/src/persona_minimal_api/chat/lease.py:69-87 | under that condition the row of a live owner stays its own and no reclaim of any process takes it, at every event from any stamp on: a stamp is a heartbeat extension or the stream's own change to running, and after the last one it holds up to the event that lets go of the row or the end of the next heartbeat due |
| LeaseSafety.SafeSettingsCoverOneMiss | python-backend/src/persona_minimal_api/config.py:142-155 | the startup check of the settings gives this from the acceptance of a request to the last event of its stream, for one missed beat in a row when the delays of each stretch sum to at most the database timeout |
| LeaseBounds.LostExactlyAfterExpiry | python-backend/src/persona_minimal_api/chat/repository.py:68-81 | from any state of any run: the run can go on to a reclaim of a live owner's row by some time if and only if stamp plus lease is earlier |
| LeaseBounds.StampOutlivesExactly | python-backend/src/persona_minimal_api/config.py:142-155 | a stamp from the start of beat m covers the end of beat n if and only if the lease is at least the intervals between them plus all delays from m to n |
| LeaseBounds.LeaseIsExact | python-backend/src/persona_minimal_api/config.py:142-155 | so, whatever number of beats fails, the row can be lost before the next successful one ends if and only if the lease is shorter than that |
| LeaseBounds.ShortestLeaseIsExact | python-backend/src/persona_minimal_api/config.py:142-155 | with the shortest lease the check admits and one missed beat the row can be lost if and only if the three calls together take more than the database timeout |
| LeaseBounds.OneMissCanLose | python-backend/src/persona_minimal_api/config.py:142-155 | and that happens: a reachable live row, calls that each stay within the timeout, one miss, and a reclaim that takes the row |
| RetryChain.AttemptsFormChains | python-backend/src/persona_minimal_api/chat/repository.py:1047-1172 | when every insert is later than the rows there are, all attempts at one message form one chain: each the retry of the one before, same version and input as the first, snapshot of the row's version, all but the last terminal |
| RetryChain.ChainIsOrdered | python-backend/src/persona_minimal_api/chat/repository.py:1107-1123 | creation times grow along a chain, so it never forks or loops |
| RetryChain.AttemptsAgree | python-backend/src/persona_minimal_api/chat/repository.py:1125-1153 | any two attempts at one message have the same version and input, and one of them is terminal |
| PersonaStores.PersonaStore.CreatePersona | python-backend/src/persona_minimal_api/repository.py:657-757 | replay by key before the limit of three and the duplicate name; a deleted persona is not found; otherwise a persona and its record |
| PersonaStores.PersonaStore.CreateDraft | python-backend/src/persona_minimal_api/repository.py:937-1034 | branch by branch: living persona, replay by key, empty slot, active base version, length of the profile; a new version in the slot with its record |
| PersonaStores.PersonaStore.CopyVersion | python-backend/src/persona_minimal_api/repository.py:1106-1128 | the base version's sources again under new identifiers |
| PersonaStores.PersonaStore.ApplySettings | python-backend/src/persona_minimal_api/repository.py:1601-1640 | a field patched together with a source of its kind is refused, then blank profile and name |
| PersonaStores.PersonaStore.CheckTargets | python-backend/src/persona_minimal_api/repository.py:1650-1666 | the request may only name sources of this draft, and not change and remove the same one |
| PersonaStores.PersonaStore.RemoveSources | python-backend/src/persona_minimal_api/repository.py:1668-1681 | the removed sources and their chunks go, of this version only |
| PersonaStores.PersonaStore.UpsertSources | python-backend/src/persona_minimal_api/repository.py:1683-1716 | sources are inserted or replaced in order; kind and blank content are refused |
| PersonaStores.PersonaStore.PatchDraft | python-backend/src/persona_minimal_api/repository.py:1399-1449 | revision compare-and-set; settings and sources together or not at all, limits included; the revision grows by one and the status is editing |
| PersonaStores.PersonaStore.GuardDraftLimits | python-backend/src/persona_minimal_api/repository.py:1718-1771 | true exactly when profile, each kind and everything together are within their lengths and no line of speech is too long, sources of one kind counted together |
| PersonaStores.PersonaStore.ActivateDraft | python-backend/src/persona_minimal_api/repository.py:1451-1510 | only a ready draft whose index is of the expected revision; only the two pointers move |
| PersonaStores.PersonaStore.DiscardDraft | python-backend/src/persona_minimal_api/repository.py:1132-1199 | the draft with its sources and chunks goes, the active version stays |
| PersonaStores.PersonaStore.StartIndexing | python-backend/src/persona_minimal_api/repository.py:1512-1599 | lock, version, processing, revision and sources in this order; on success a run exists and the version is processing |
| PersonaStores.PersonaStore.ChunkSources | python-backend/src/persona_minimal_api/indexing/runner.py:66-79 | the records of all sources in order; a source without chunks, or none at all, fails the run |
| PersonaStores.PersonaStore.LoadAndBuild | python-backend/src/persona_minimal_api/indexing/runner.py:66-119 | the run holds its rows and records, or the code of its failure |
| PersonaStores.PersonaStore.ReplaceChunks | python-backend/src/persona_minimal_api/indexing/store.py:39-85 | the version's chunks are deleted and the records inserted; a UNIQUE or foreign key violation is an error |
| PersonaStores.PersonaStore.MarkReady | python-backend/src/persona_minimal_api/indexing/runner.py:136-155 | status only for the run's own revision, indexed revision in any case |
| PersonaStores.PersonaStore.Commit | python-backend/src/persona_minimal_api/indexing/runner.py:49-51 | chunks and status in one transaction; a failure restores the chunks |
| PersonaStores.PersonaStore.MarkFailed | python-backend/src/persona_minimal_api/indexing/runner.py:158-171 | failed only for the run's own revision |
| PersonaStores.PersonaStore.RunIndexing | python-backend/src/persona_minimal_api/indexing/runner.py:33-63 | with any transactions of others after each step, a run is build, commit, mark failed if need be on the state it then finds; its job is its own throughout and the lock is given back in every case |
| MaterialHistory.OthersLeaveJob | python-backend/src/persona_minimal_api/indexing/runner.py:33-63 | whatever others patch, discard, delete, index or restart, the job of a run moves only by the run itself |
| PersonaStores.PersonaStore.Restart | python-backend/src/persona_minimal_api/main.py:473-489 | whatever is processing becomes failed as interrupted |
| PersonaStores.PersonaStore.MaterialIsBusy | python-backend/src/persona_minimal_api/repository.py:1282-1300 | an index run holds the persona's lock, or a version is processing |
| PersonaStores.PersonaStore.DeleteMaterialRecords | python-backend/src/persona_minimal_api/repository.py:1360-1397 | pointers, chunks, sources, versions and records go; the tombstone and the records of creation and deletion stay |
| PersonaSteps.CreatePersonaKeepsInv | python-backend/src/persona_minimal_api/repository.py:657-757 | creating a persona keeps the invariant of the persona tables and every activated version |
| PersonaSteps.CreateDraftKeepsInv | python-backend/src/persona_minimal_api/repository.py:937-1128 | so does a new draft, empty or copied |
| DraftSteps.PatchedSources | python-backend/src/persona_minimal_api/repository.py:1642-1716 | a patch changes sources of its own draft only, keeps their version, and only removed ones go |
| DraftSteps.PatchDraftKeepsInv | python-backend/src/persona_minimal_api/repository.py:1399-1449 | a patch keeps the invariant and every activated version, also while an index run of the same draft is under way |
| DraftSteps.ActivateDraftKeepsInv | python-backend/src/persona_minimal_api/repository.py:1451-1510 | activation keeps it, seals the version and changes nothing of it |
| DraftSteps.DiscardDraftKeepsInv | python-backend/src/persona_minimal_api/repository.py:1132-1199 | discarding keeps it |
| DraftSteps.DeleteMaterialKeepsInv | python-backend/src/persona_minimal_api/repository.py:1360-1397 | deleting an idle persona keeps it, and the activated versions of all others |
| IndexSteps.PendingIsExact | python-backend/src/persona_minimal_api/indexing/runner.py:66-79 | the records are exactly the chunks of the listed sources |
| IndexSteps.InsertIsExact | python-backend/src/persona_minimal_api/indexing/store.py:57-85 | after the inserts the table holds the old rows and one row a record, nothing else |
| IndexSteps.RunIsExact | python-backend/src/persona_minimal_api/indexing/runner.py:33-51 | the stored chunks of a version whose sources the run still lists are exactly the chunks of these sources |
| IndexSteps.CommitJobKeepsInv | python-backend/src/persona_minimal_api/indexing/runner.py:33-63 | the commit keeps the invariant: a version becomes ready only when its index is exact; an overtaken run may leave chunks but never a ready status |
| IndexSteps.CurrentRunCommits | python-backend/src/persona_minimal_api/indexing/store.py:51-53 | a run whose revision is still the version's is never refused by the UNIQUE key: the version is ready and its index exact |
| IndexSteps.StartIndexingKeepsInv | python-backend/src/persona_minimal_api/repository.py:1512-1599 | starting a run keeps the invariant: one run a lock, none on a ready version |
| IndexSteps.BuildJobKeepsInv | python-backend/src/persona_minimal_api/indexing/runner.py:66-119 | loading after a patch slipped in keeps it: the run knows its rows only as long as the revision is the one it started from |
| IndexSteps.FailJobKeepsInv | python-backend/src/persona_minimal_api/indexing/runner.py:158-171 | marking a failure keeps it |
| IndexSteps.RestartKeepsInv | python-backend/src/persona_minimal_api/main.py:473-489 | the startup hook keeps it, also while a run is alive in another process |
| Activation.ActivatedIsFixed | python-backend/src/persona_minimal_api/repository.py:1451-1510 | from activation to the deletion of the persona the version keeps its settings, sources and chunks, is ready, and its chunks are exactly those of its sources |
| Activation.ActivationIsSafe | python-backend/src/persona_minimal_api/repository.py:1451-1510 | activation succeeds only on an exact index, in every run of patch, index, discard, activate, restart and crash steps |
| Activation.ActiveIsExact | python-backend/src/persona_minimal_api/repository.py:1399-1599 | the version a persona points to as active is ready and indexed exactly, in every reachable state |
| Activation.CurrentRunSucceeds | python-backend/src/persona_minimal_api/indexing/runner.py:33-63 | in any run, the commit of an index run that no patch has overtaken leaves a version that can be activated, with an exact index |
| Activation.NoRunOnReady | python-backend/src/persona_minimal_api/indexing/runner.py:136-155 | no index run that can still commit is under way on a ready version |
| Deletion.DeletionIsExact | python-backend/src/persona_minimal_api/repository.py:1203-1397 | a deletion that succeeds anywhere in a run finds a living persona of the user without index run and active generation, takes exactly the rows of that persona out of every table, and no later state holds any of it |
| Deletion.NothingComesBack | python-backend/src/persona_minimal_api/repository.py:1203-1280 | after the deletion no state holds a version, source, chunk, run, conversation, message or generation of the persona |
| Deletion.TheRowsAreGone | python-backend/src/persona_minimal_api/repository.py:1318-1397 | and none of the identifiers that once were its own is in any later state |
| Deletion.OldKeyCreatesNothing | python-backend/src/persona_minimal_api/repository.py:692-709 | sending the creation again under the old key creates nothing, for ever |
| Deletion.DeletedTakesNothing | python-backend/src/persona_minimal_api/chat/repository.py:340-377 | no key opens a conversation with a deleted persona or starts a draft for it |
| MaterialHistory.VersionKeepsPersona | python-backend/src/persona_minimal_api/repository.py:1036-1060 | a version belongs to one persona as long as it exists |
| MaterialHistory.SourceKeepsVersion | python-backend/src/persona_minimal_api/repository.py:1691-1716 | a source belongs to one version as long as it exists |
| Upstream.Tokens | python-backend/src/persona_minimal_api/chat/vllm_client.py:258-322 | the reading loop yields what its specification yields on every sequence of turns |
| Upstream.QuietMeansDoneOrCancelled | python-backend/src/persona_minimal_api/chat/vllm_client.py:258-322 | the loop ends without an exception only at the sentinel, after every content token before it, or when it saw the cancel flag |
| Upstream.KnownAttempt | python-backend/src/persona_minimal_api/chat/vllm_client.py:148-210 | after any calls on the client, an attempt is in its table if and only if it was started and not forgotten since |
| Upstream.RunningAttempt | python-backend/src/persona_minimal_api/chat/vllm_client.py:148-210 | its flag is set if and only if it was cancelled since its start, before or after the response came, and its response is closed if and only if a cancel found it open |
| Upstream.CancelReachesReader | python-backend/src/persona_minimal_api/chat/vllm_client.py:177-239 | however the steps of cancel() fall between those of the stream and of other cancels, once it has returned the flag is set and nobody reads on from an open response |
| Upstream.VllmClient.Cancel | python-backend/src/persona_minimal_api/chat/vllm_client.py:177-194 | only a known attempt is flagged, and its response closed if it is open |
| StreamObjects.AnswerStream.Next | python-backend/src/persona_minimal_api/chat/service.py:247-272 | resuming the generator at each of its yields |
| StreamObjects.AnswerStream.Close | python-backend/src/persona_minimal_api/chat/service.py:273-275 | GeneratorExit at a yield leads to the disconnect handler, but not on a generator that never ran or at the yield of the safety net |
| StreamObjects.AnswerStream.Turn | python-backend/src/persona_minimal_api/chat/service.py:443-452 | one item from the queue: a delta with the next index, or the verdict to store |
| StreamObjects.AnswerStream.EmptyTurn | python-backend/src/persona_minimal_api/chat/service.py:427-442 | an empty queue: client gone comes before the deadline, the deadline cancels the upstream and fails |
| StreamObjects.AnswerStream.DrainQueue | python-backend/src/persona_minimal_api/chat/service.py:417-452 | the loop as a whole, for a consumer that takes every delta |
| StreamObjects.AnswerStream.WorkerTurn | python-backend/src/persona_minimal_api/chat/service.py:405-415 | the worker puts chunk, end or error on the queue |
| StreamObjects.LoopDeliversAll | python-backend/src/persona_minimal_api/chat/service.py:417-458 | a queue of chunks and an end gives every chunk once, in order, and the content to store is their concatenation |
| StreamObjects.StreamOwner.CallNext | python-backend/src/persona_minimal_api/chat/sse_stream.py:69-75 | next() goes to the thread pool and its future into the field, and no call before it is still under way |
| StreamObjects.StreamOwner.NextArrives | python-backend/src/persona_minimal_api/chat/sse_stream.py:75-79 | the field is cleared if and only if the next() did not raise, and then no call is under way |
| StreamObjects.StreamOwner.Cancel | python-backend/src/persona_minimal_api/chat/sse_stream.py:73-88 | a cancel at either await leaves future and field alone |
| StreamObjects.StreamOwner.CleanUp | python-backend/src/persona_minimal_api/chat/sse_stream.py:90-101 | client_gone first; the field alone decides whether a future is awaited or close() called, and where it is called at once no call is under way |
| StreamObjects.StreamOwner.PendingArrives | python-backend/src/persona_minimal_api/chat/sse_stream.py:98-102 | close() is called only when every call has ended, whatever the pending next() ended with |
| StreamObjects.StreamOwner.CloseArrives | python-backend/src/persona_minimal_api/chat/sse_stream.py:102-102 | when the response is through, every call has ended and so has the generator |
| StreamObjects.StreamOwner.TakeJob | python-backend/src/persona_minimal_api/chat/sse_stream.py:48-52 | a thread that takes a job up never finds the generator executing, and every other job has ended: it resumes the generator, closes it, or finds it ended |
| StreamObjects.StreamOwner.EndJob | python-backend/src/persona_minimal_api/chat/sse_stream.py:48-52 | the job ends with what the generator came to rest with |
| StreamObjects.GenerationLeaseKeeper.BeatOnce | python-backend/src/persona_minimal_api/chat/lease.py:69-82 | all own leases are extended and exactly the own cancel_requested rows are cancelled upstream; nothing when the database fails |
| StreamProofs.MovesKeepSystem | python-backend/src/persona_minimal_api/chat/service.py:214-488 | every state of every interleaving of generator, worker, owner, cancel requests and other processes satisfies the invariant of a stream |
| StreamTheorems.EventsFollowProtocol | python-backend/src/persona_minimal_api/chat/service.py:214-297 | the events sent are a prefix of meta, citations, deltas numbered 0, 1, 2, ..., one done or error |
| StreamTheorems.CompletedIsTheWholeAnswer | python-backend/src/persona_minimal_api/chat/service.py:386-471 | a completed row holds the concatenation of all deltas sent, which are all content tokens upstream sent before its sentinel |
| StreamTheorems.DoneMeansStored | python-backend/src/persona_minimal_api/chat/service.py:454-488 | done is sent only when the row is stored as completed |
| StreamTheorems.BrokenOffIsNotCompleted | python-backend/src/persona_minimal_api/chat/vllm_client.py:177-239 | a stream ended by an upstream cancel or a failure is never stored as completed |
| StreamTheorems.FieldTracksNext | python-backend/src/persona_minimal_api/chat/sse_stream.py:64-79 | when _pending_next is None no next() waits or runs in the pool, and when it holds a future that is the only one that can, wherever the response was cancelled and however each next() ended |
| StreamTheorems.NextAndCloseNeverOverlap | python-backend/src/persona_minimal_api/chat/sse_stream.py:69-102 | two calls on the generator never run together, no next() waits or runs while a close() exists, no thread ever finds the generator executing, and it runs only inside a call |
| StreamTheorems.ResponseEndsResolved | python-backend/src/persona_minimal_api/chat/sse_stream.py:81-102 | when the response is over, the first event was sent and no database call failed, the row is reconciling, terminal or deleted |
| StreamEndings.NothingSentNothingWritten | python-backend/src/persona_minimal_api/chat/service.py:247-307 | as long as nothing was sent, every change of the database was made by others |
| StreamEndings.LiveAfterwardsExactlyWhenNothingSent | python-backend/src/persona_minimal_api/chat/sse_stream.py:81-102 | a row that was live, that nobody else moved, and with a database that did not fail is still live after the response if and only if nothing was sent |
| StreamEndings.CanEndWithLiveRow | python-backend/src/persona_minimal_api/chat/sse_stream.py:93-102 | and that is reachable: a response cut short before its first event ends and leaves its row queued |
| StreamTheorems.StreamIsOrderly | python-backend/src/persona_minimal_api/chat/service.py:326-369 | the input a stream freezes is of the row's own version |
| Chunker.SplitLineByPunctuation | python-backend/src/persona_minimal_api/indexing/chunker.py:132-149 | cuts at the sentence boundaries of the pattern |
| Chunker.SplitSentences | python-backend/src/persona_minimal_api/indexing/chunker.py:116-129 | line ends are boundaries too, blank lines give nothing |
| Chunker.SplitSentencesToBudget | python-backend/src/persona_minimal_api/indexing/chunker.py:152-178 | greedy packing up to the target, never past the cap |
| Chunker.MergeBelowFloor | python-backend/src/persona_minimal_api/indexing/chunker.py:181-208 | merging of pieces below the floor |
| Chunker.SplitByHeading | python-backend/src/persona_minimal_api/indexing/chunker.py:86-109 | sections with their heading path |
| Chunker.ChunkMarkdownBody | python-backend/src/persona_minimal_api/indexing/chunker.py:70-83 | the chunks of all sections, numbered on |
| Chunker.ChunkSpeechLines | python-backend/src/persona_minimal_api/indexing/chunker.py:58-67 | one chunk a nonblank line |
| Chunker.RunChunkMaterial | python-backend/src/persona_minimal_api/indexing/chunker.py:49-55 | by kind; an unknown kind is an error |
| ChunkerProofs.SectionPartition | python-backend/src/persona_minimal_api/indexing/chunker.py:70-208 | the chunk bodies of a section are its sentences cut into consecutive nonempty groups |
| ChunkerProofs.SectionKeepsText | python-backend/src/persona_minimal_api/indexing/chunker.py:112-208 | without whitespace the bodies of a section are exactly its text |
| ChunkerProofs.MarkdownLosesNothing | python-backend/src/persona_minimal_api/indexing/chunker.py:70-109 | for a whole source: bodies behind their prefixes, numbered 0, 1, 2, ..., which without whitespace are the non-heading lines |
| ChunkerProofs.MarkdownCapped | python-backend/src/persona_minimal_api/indexing/chunker.py:152-178 | every chunk, prefix included, is within the cap or its body is one sentence |
| ChunkerProofs.SectionFloor | python-backend/src/persona_minimal_api/indexing/chunker.py:181-208 | a body below the floor could not be joined with its successor, or the last with its predecessor, for every prefix length |
| ChunkerProofs.SpeechLosesNothing | python-backend/src/persona_minimal_api/indexing/chunker.py:58-67 | speech chunks hold all text that is not whitespace |
| ChunkerProofs.ChunksNumbered | python-backend/src/persona_minimal_api/indexing/chunker.py:49-83 | whatever the kind, chunks are numbered from zero and carry it |
| PromptEscape.EscapeIsPointwise | python-backend/src/persona_minimal_api/retrieval/prompt.py:137-147 | the four replacements in sequence change exactly the brackets that open a data or speech tag |
| PromptEscape.EscapeLeavesNoTag | python-backend/src/persona_minimal_api/retrieval/prompt.py:137-147 | escaped text opens no such tag |
| PromptEscape.EscapeIsIdempotent | python-backend/src/persona_minimal_api/retrieval/prompt.py:137-147 | escaping twice is escaping once |
| PromptEscape.EscapeChangesOnlyTags | python-backend/src/persona_minimal_api/retrieval/prompt.py:137-147 | escaping leaves a text as it is if and only if it opens no such tag |
| PromptEscape.ReferencesRoundTrip | python-backend/src/persona_minimal_api/retrieval/prompt.py:162-168 | reading the reference block gives back the escaped chunks in order with numbers 1 to n, for any contents |
| PromptEscape.SpeechBlockLines | python-backend/src/persona_minimal_api/retrieval/prompt.py:150-159 | every line inside the speech block starts with a dash and a blank |
| Prompt.TrimChunks | python-backend/src/persona_minimal_api/retrieval/prompt.py:240-254 | the longest prefix of chunks whose block fits its budget, or none |
| Prompt.TrimTurns | python-backend/src/persona_minimal_api/retrieval/prompt.py:256-263 | oldest exchanges (or turns) are dropped until the history fits |
| Prompt.V2KeepsLatestExchanges | python-backend/src/persona_minimal_api/retrieval/prompt.py:175-185 | on alternating history the longest suffix of whole exchanges that fits, or nothing |
| Prompt.V1KeepsLongestSuffix | python-backend/src/persona_minimal_api/retrieval/prompt.py:188-272 | version 1 keeps the longest suffix of turns |
| Prompt.BuildMessages | python-backend/src/persona_minimal_api/retrieval/prompt.py:188-294 | which errors are raised when, and one system message, the kept history, the question |
| Login.AuthService.Login | python-backend/src/persona_minimal_api/auth/service.py:132-169 | one attempt under the row lock: refused while the lock is in force without verifying, otherwise verified; a success resets the row and issues a session |
| Login.AuthService.RecordFailure | python-backend/src/persona_minimal_api/auth/service.py:171-181 | an expired lock starts the count again; reaching the threshold locks |
| Login.AuthService.Authenticate | python-backend/src/persona_minimal_api/auth/service.py:183-199 | the subject of an active session only, renewing a stale last_seen_at |
| Login.AuthService.Logout | python-backend/src/persona_minimal_api/auth/service.py:201-207 | revokes an active session; afterwards no call authenticates with it |
| Login.GuessesAreBounded | python-backend/src/persona_minimal_api/auth/service.py:132-181 | without a success, verifications in a window are at most threshold times one more than the whole lock periods in it, from any stored row |
| Login.LockHoldsBack | python-backend/src/persona_minimal_api/auth/service.py:160-162 | while a lock is in force no attempt, right or wrong, has a password verified |
| Login.BoundIsReached | python-backend/src/persona_minimal_api/auth/store.py:245-268 | the bound is sharp: bursts one lock period apart reach it |

## Left out

- HTTP routing, response bodies, error mapping, HTTP metrics, paging and listing of personas and conversations: no deep invariant.
- PostgreSQL, psycopg pooling, connection loss with an ambiguous commit, migrations and the branches for older schema revisions: transactions are atomic and the current schema is there.
- Hashing, tokens, passwords and HMAC cursors: a hash is the hashed value itself, so injective; a password matches or does not.
- Embedding vectors, digests, byte sizes, file names, display names, index times and `updated_at` columns: stored but read by nothing that is proved here.
- Vector search and ranking, and the prompt's instruction texts: retrieved chunks and instructions are arguments.
- JSON decoding is a parameter of the upstream reader; what a decoded chunk means is modelled.
- The mock inference client, sampling settings, evaluation scripts, fixtures and readiness.
- Real time in streams: that a deadline passes is a move of its own, enabled only on an empty queue; nothing is said about when a stream ends. The time between a heartbeat's wake-up and its call is part of the call's delay.
- Restarting the gateway's heartbeat thread and the joining of threads at shutdown.
- Rows with equal `created_at`: the slot check takes any newest active row, as the query does; retry chains assume that an insert is later than the rows there are.
- RetryChain.AttemptsFormChains: needs what `RetryChain.Orderly` says, inserts at later times than the rows there are and inputs frozen for the row's version; the second is proved of streams in `StreamTheorems.StreamIsOrderly`, the first is left to the database clock.
- CrashRecovery.CrashedOwnerGivesWay: speaks of a request that nothing but the slot could refuse (known user, new key, open conversation, active version; for a retry a terminal newest attempt with its input); other refusals roll the slot check back.
- StreamTheorems.ResponseEndsResolved: says nothing about the row when a database call of the stream failed, because nothing is stored then; the row is found by its lease.
- Upstream.RunningAttempt: a response is attached through the table of attempts; an iterator whose attempt a second `start()` of the same generation has replaced is not modelled, as every generation is started once.
- LeaseSafety.LiveOwnerKeepsRow: the last stretch ends with the next heartbeat due, which has to come back at some time; a process that hangs in that call for ever counts as one that has died.
- StreamObjects.AnswerStream.Next: stops at the first call out of the generator; those calls are moves of `Streams`.
