# Verification of the StudioTower backend

A Dafny model of the parts of the StudioTower backend whose correctness depends on interleaving, crashes or exact
bookkeeping, with proofs. `dafny verify dfyconfig.toml` checks the whole project.

Three protocols are modelled as state machines over the store's atomic steps. For each there is a protocol file (state,
steps, invariant), a file of statements about whole runs, a class that stands for the store with one method per atomic
operation, and the handlers as imperative methods. Before every access a handler lets all other actors take any steps
that are enabled (`Interfere`), so its contract holds in every interleaving.

- **Approval** (`approval_*.dfy`): approvers, the bundler, the reconciler, the stalled-run scanner and the sweeper on one
  gated run, with decision lease and token, status compare-and-swap, a commit whose answer may be lost, rollback, and
  cleanup jobs that delete blobs.
- **Chat** (`chat_*.dfy`): the idempotency record of one key, its heartbeat thread, fencing by version and owner, and
  attempts that may crash at any access; any write may be lost or applied without an answer.
- **Upload** (`upload_*.dfy`): intent, blob, commit, compensation, and the cleaner that claims, marks, wipes and forgets.

Ten algorithms stand on their own: the dual sliding-window limiter (`limiter*.dfy`), admission permits
(`permits_protocol.dfy`, `permits.dfy`), plain-text chunks (`text_chunks.dfy`), Final Draft scenes (`script_chunks.dfy`),
spreadsheet rows (`row_batches.dfy`), evidence packing (`evidence.dfy`), the W3C trace context header
(`traceparent.dfy`), the lineage graph (`lineage*.dfy`), schedule and hand-off (`handoff.dfy`) and the Cloud Run traffic
parsers (`traffic.dfy`). `numerals.dfy`, `py_text.dfy`, `sequences.dfy` and `options.dfy` hold what they share.

Approval has three more files: how long a claim lasts (`approval_claims.dfy`), what an abort leaves to the sweepers
(`approval_cleanups.dfy`), and concrete runs that show where the code falls short (`approval_witnesses.dfy`).

The store's steps follow the in-memory store of `backend/app/services/storage.py`. `wiped`, `drawn`, `claims`, `commits`,
`staging`, `aborts`, `decisions` and the histories are bookkeeping of the model.

## Where the code falls short of what its documentation or shape suggests

Each point but the one on `save_run` is a theorem; the table below names it. That one says how the model reads the store.

- An artifact record is written without a fence, so a bundler that lost its lease can mark an artifact of a COMPLETED run
  as pending again. One that fails deletes the files it uploaded, and an upload of an id that already has a record hands
  out that record, so it can also delete a published file of a COMPLETED run. Publication of both records of everything
  due is exact if and only if neither happens and no commit falls short.
- The bundler gives its manifest, a plain file, an artifact record that no commit publishes: it stays pending in every
  run. With that record set aside (`spared`), the ordinary run is published exactly.
- `save_run` creates a run only when it is absent, so the bundler's final save of an existing run changes nothing in the
  store; in the in-memory store its assignments show because the run object is shared.
- An unforced abort of a run that names something can hit a live lease, and does so exactly when that was claimed after
  the reconciler's read. The lease of a run that names nothing is never looked at: where the store hands out copies, an
  approver whose commit was lost fails its own run under its own live lease.
- An abort enqueues jobs for what the run named when it was read. Blobs staged for a run that did not name them, by a
  bundle that failed or under a copying store, are never cleaned up.
- The rollback after a refused commit is not tied to the token: it can undo the claim of another approver, whose commit
  is then refused.
- Publication and completion happen in one step, so the reconciler's COMMITTED_PUBLISHED answer cannot occur;
  NO_ARTIFACTS_FAILED is answered whatever the store said.
- A cleanup job whose sweeper crashed is never listed or claimed again.
- A COMPLETED chat record cannot be turned back to FAILED by a late trap, because completion clears the owner. A takeover
  of an expired lease skips the payload comparison that every other way in makes, so a reused key answers its first
  payload.
- An uploader that stalls past its grace period can leave a blob without a record. A deletion that fails saves its copy of
  the record back, however old: a record that was gone is then back, without a file, hidden from listings and queued for
  cleanup. Nothing else brings a record back.
- The limiter reads the clock before it takes the lock; with readings out of order every limiter that admits anyone can
  let more than its limit into a minute. A call turned away for its space still prunes the deque of its user, and the
  other way round.
- A discussion takes a permit of the model semaphore and never returns it; after as many discussions as there are permits
  no model call is admitted.
- The page count of a plain-text document is one more than its chunks exactly when the last chunk is full. The rows of a
  sheet that is nothing but its header are labelled one too far.
- Coverage "full" can hide a missing chunk exactly from a hundred chunks on.
- A trace context with flags above 255 is printed and cannot be read back. A revision name with a comma or an equals
  sign does not survive the printed allocations. The lineage graph has a cycle exactly when runs feed each other in a
  circle; one run that works on an earlier run's output and lists it as its own is enough.

## Model

| member | source | states |
|---|---|---|
| `ApprovalRuns.PublicationIsExact` | backend/app/api/run_routes.py:154-193 | In every interleaving, at every point, both the artifact and the file record of every output, of the manifest and of the whole bundle are published if the run is COMPLETED with its gate approved, and none is otherwise, if and only if no bundler writes an artifact record or deletes a file of a completed run and no accepted commit falls short of reaching them; the artifact records of `spared` are left out of account |
| `ApprovalProtocol.PublishedStep` | backend/app/services/storage.py:3476-3482 | One step keeps that publication if and only if it is not a late artifact record, a late deletion of a file or a short commit |
| `ApprovalRuns.UnspoiledKeepsPublication` | backend/app/services/storage.py:3855-3975 | Without those steps publication and completion coincide at every point of every run |
| `ApprovalProtocol.CommitPublishes` | backend/app/services/storage.py:3886-3941 | An accepted commit publishes both records of everything due if and only if it reaches them |
| `ApprovalProtocol.CommitReachesAllIff` | backend/app/services/storage.py:3886-3941 | For a run that names the bundle's manifest it reaches them exactly when every file record is staged and the manifest is spared, an output, or more than a plain file |
| `ApprovalProtocol.DedupKeepsFirsts` | backend/app/api/run_routes.py:138-138 | Merged lists of ids keep each id once, where it first stands |
| `ApprovalRuns.FileManifestIsNeverPublished` | backend/app/services/storage.py:3888-3895 | Shortfall: in every run the artifact record of a manifest that is a plain file and no output, as the bundler's is, is never published; no completed run is published without sparing it |
| `ApprovalWitnesses.ManifestArtifactIsLeftPending` | backend/app/integrations/pdx_engine.py:457-494 | Shortfall: an ordinary run ends COMPLETED with the manifest's file published and its artifact record pending |
| `ApprovalRuns.EvolvesAlways` | backend/app/services/storage.py:2359-2383 | COMPLETED and FAILED are never left; clock, cleanup jobs, claims and commits only grow; blobs of a run that has not failed stay |
| `ApprovalRuns.AtMostOneCommit` | backend/app/api/run_routes.py:154-164 | Of all commits of all approvers over a whole run at most one is accepted |
| `ApprovalRuns.CommitIsByLastClaimant` | backend/app/services/storage.py:3872-3878 | An accepted commit carries the token of the most recent accepted claim |
| `ApprovalRuns.SupersededNeverPublishes` | backend/app/api/run_routes.py:108-132 | A claimant whose lease was taken over never publishes afterwards |
| `ApprovalRuns.InvAlways` | backend/app/api/run_routes.py:108-228 | The inductive invariant (gate and status agree, one commit, live token is the last claim, no cleanup job before FAILED) holds at every point of every run |
| `ApprovalRuns.DeletedBlobIsNeverPublished` | backend/app/services/deliverable_service.py:747-757 | When a sweeper deletes a blob the run has failed and the artifact is never published from then on, so check and deletion need no common lock |
| `ApprovalRuns.PublishedHasBlob` | backend/app/services/deliverable_service.py:735-776 | Every published artifact has its blob; cleanup jobs exist only for a failed run |
| `ApprovalRuns.ExpiredApprovalIsRecoverable` | backend/app/api/run_routes.py:56-63 | A running approval is open to a new approver exactly when its lease has run out, and then the scanner lists it |
| `ApprovalRuns.ScannerAndReconcilerDiffer` | backend/app/services/storage.py:2332-2357 | The scanner's and the reconciler's criteria differ in exactly one case: an uncertain commit past its grace period under a live lease |
| `ApprovalProtocol.NothingToConfirm` | backend/app/services/deliverable_service.py:639-656 | A reachable RUNNING run is never fully published, so only an abort can settle it: publication and completion are one step, and the confirming branch finds nothing to do |
| `ApprovalSweepers.OneReportPerClaim` | backend/app/services/storage.py:4204-4230 | Of all sweepers' reports on one claim of a cleanup job at most one is accepted |
| `ApprovalSweepers.JobsAreSound` | backend/app/services/storage.py:4113-4150 | A cleanup job never exceeds its retries, and holds a lease only while in progress |
| `ApprovalProtocol.BackoffDoubles` | backend/app/services/storage.py:4152-4152 | The delay of a cleanup job starts at one second, doubles with every retry and never exceeds five minutes |
| `ApprovalSweepers.AbandonedJobIsLost` | backend/app/services/storage.py:4061-4071 | Shortfall: a job whose sweeper crashed is never claimed again and no report on it is accepted; its cleanup stays unfinished |
| `ApprovalWitnesses.AbandonedJobIsReached` | backend/app/services/storage.py:4061-4111 | Such a job is reached: the lease of a run that names its bundle expires, the reconciler's abort enqueues what it read at the version it read, a sweeper claims a job, and a minute passes with the blob still there |
| `ApprovalSweepers.RejectionWithdraws` | backend/app/services/storage.py:3977-4059 | A rejected run withdraws every deliverable it names and nothing of it is published afterwards |
| `ApprovalWitnesses.LateBundlerUnpublishes` | backend/app/integrations/pdx_engine.py:457-474 | Shortfall: a run in which a bundler that lost its lease leaves a COMPLETED run with a pending artifact record |
| `ApprovalWitnesses.LateDropUnpublishes` | backend/app/integrations/pdx_engine.py:475-481 | Shortfall: a run in which a bundler that lost its lease fails and deletes the published file of a COMPLETED run, which the upload had handed it as its own |
| `ApprovalWitnesses.AbortCanHitNewerLease` | backend/app/services/deliverable_service.py:660-699 | Shortfall: a reconciler reads a run that names its bundle under an expired lease, another approver claims it, and the abort of what was read fails the run under that claim's live lease |
| `ApprovalClaims.ExpiredLeaseIsLiveIffClaimedSince` | backend/app/services/deliverable_service.py:660-699 | A lease that had expired, as read at one point against the clock of a later one, is live at a later point of a running approval if and only if the run was claimed since the reading, less than a lease ago |
| `ApprovalClaims.LeaseIsLiveIffFreshlyClaimed` | backend/app/api/run_routes.py:108-128 | A running approval's lease is live if and only if some claim was accepted less than a lease ago |
| `ApprovalHandlers.LiveLeaseIsHitIffNothingNamed` | backend/app/services/deliverable_service.py:612-672 | With no claim between its reading and its step an unforced abort hits a live lease if and only if the run as read named no output and no manifest and its lease is still live |
| `ApprovalWitnesses.LostAnswerFailsOwnRun` | backend/app/api/run_routes.py:194-214 | Shortfall: a run in which the stored run names nothing, the commit's answer is lost before the commit, and the approver's own unforced reconciliation fails the run under its own live lease, stranding what it had staged |
| `ApprovalWitnesses.LoseTheAnswer` | backend/app/api/run_routes.py:108-228 | The same through the endpoint, by one undisturbed approval: FAILED, no cleanup job, the bundle's blobs still there |
| `ApprovalCleanups.HasJobIffNamed` | backend/app/services/deliverable_service.py:674-699 | Once a running approval is aborted an artifact has a cleanup job, then and ever after, if and only if the reconciler had read a run that named it |
| `ApprovalCleanups.SweptIffNamed` | backend/app/services/deliverable_service.py:612-699 | A blob that is staged when a running approval is aborted can be removed afterwards if and only if the reconciler had read a run that named its artifact |
| `ApprovalCleanups.StrandedForGood` | backend/app/services/deliverable_service.py:728-776 | A blob of a failed run that no job is for stays, whatever anybody does |
| `ApprovalClaims.CommitIsRefusedIffUndone` | backend/app/services/storage.py:3872-3906 | The commit of a claimant whose claim was accepted is refused if and only if, in between, somebody claimed the run, rolled it back or settled it, or a target of the commit is not pending |
| `ApprovalWitnesses.RollbackTakesDownTheReclaimer` | backend/app/api/run_routes.py:165-193 | Shortfall: a run in which the first claimant's commit is refused, its rollback undoes the second one's claim, and the second one's commit, which would have gone through, is refused |
| `ApprovalWitnesses.FileManifestArtifactStaysPending` | backend/app/services/storage.py:3888-3941 | A commit publishes the file record of a plain-file manifest and leaves its artifact record as it was |
| `ApprovalWitnesses.RollbackUndoesAnyClaim` | backend/app/api/run_routes.py:172-186 | The rollback is not tied to the token: it undoes whichever claim is live, and that claimant's commit is then refused |
| `ApprovalHandlers.ReconcileApprovalCommit` | backend/app/services/deliverable_service.py:592-708 | With any steps of others between its reads and its write: COMMITTED_PUBLISHED or ALREADY_COMPLETED means COMPLETED, ABORTED_CLEANUP_ENQUEUED or ALREADY_ABORTED means FAILED. It issues an abort of exactly what it read only if that was undecided and named nothing or had an expired lease, and always then, unless it saw everything published; of a running approval whose lease it finds live it issues one if and only if the run named nothing. An abort that finds a running approval fails it, and hits a live lease exactly when that was claimed since the reading, or at all where the lease was not looked at. Undisturbed, code and store are exactly the designed ones |
| `ApprovalHandlers.AllArtifactsPublished` | backend/app/services/deliverable_service.py:629-637 | If every artifact was seen published, the run is COMPLETED, although the reads are separate; undisturbed the answer is exactly that every record of both kinds is published |
| `ApprovalHandlers.CollectCleanups` | backend/app/services/deliverable_service.py:677-687 | One cleanup item for every deliverable, carrying the version of the run as read |
| `ApprovalHandlers.AbandonEmpty` | backend/app/services/deliverable_service.py:616-627 | A run without artifacts is aborted without a look at its lease, and the answer ignores the store's verdict; still the run is not RUNNING right after |
| `ApprovalHandlers.Confirm` | backend/app/services/deliverable_service.py:639-656 | After all were seen published the confirmation always ends as ALREADY_COMPLETED, with the stored run |
| `ApprovalHandlers.Abort` | backend/app/services/deliverable_service.py:689-708 | The abort's answer is true of the store, whoever got there first |
| `ApprovalHandlers.AbortOutcome` | backend/app/services/storage.py:3271-3408 | An abort of a RUNNING run is never refused for being published, and any other status keeps the store unchanged |
| `ApprovalEndpoint.ApproveRunGate` | backend/app/api/run_routes.py:31-261 | Whether a request goes on depends on the run and the clock as it read them, recorded with their places in the history: it claims, on the status it read, if and only if it approves and the run was awaiting approval or RUNNING under a decision lease that had run out; otherwise 400 or 409, undisturbed with the store unchanged. A normal return of the approve branch means COMPLETED and of the reject branch FAILED; an approval by this request's own commit names the whole bundle and everything the run named when claimed; an undisturbed approval of either kind of open run goes through, and with its answer delivered as its own, naming nothing else; undisturbed, a lost commit leaves the run RUNNING or, where the stored run names nothing, FAILED without a job, and a bundle that fails leaves it FAILED with jobs for exactly what the run named |
| `ApprovalEndpoint.ClaimAndPublish` | backend/app/api/run_routes.py:108-228 | Its one claim carries the status and token it was given; if that is refused nothing more is done and the answer is 409; an outcome claimed as this request's own commit means the store's only commit carries this token; an undisturbed one whose answer is delivered is claimed so |
| `ApprovalEndpoint.TakeDecision` | backend/app/api/run_routes.py:111-132 | One claim is issued; undisturbed it is accepted exactly on the expected status and changes only status, version and gate |
| `ApprovalEndpoint.CommitOnce` | backend/app/api/run_routes.py:154-164 | An accepted commit is the only one of the run and carries this token |
| `ApprovalEndpoint.PublishBundle` | backend/app/api/run_routes.py:154-228 | Conflict, lost answer before or after the commit, and success: an approval is returned only for a COMPLETED run, as stored, and always if it had been completed elsewhere and reconciling works; an undisturbed commit that is accepted and answered is this request's own; an undisturbed one that is lost fails exactly a run that names nothing |
| `ApprovalEndpoint.AfterConflict` | backend/app/api/run_routes.py:165-193 | After a refused commit: approval with the stored run, always if it had been completed, else the last step is the rollback and the answer 409; undisturbed the new run is given |
| `ApprovalEndpoint.AfterLostAnswer` | backend/app/api/run_routes.py:194-228 | After a lost answer: approval only for a COMPLETED run, and always for one that was COMPLETED, among any steps of others, unless reconciling raises; undisturbed, a running approval under a live lease is FAILED if it names nothing and otherwise keeps status and gate, with no job enqueued either way |
| `ApprovalEndpoint.NoteUncertain` | backend/app/api/run_routes.py:196-207 | The last step is the marking, and it changes neither gate nor status of the run it found; undisturbed a RUNNING run gets exactly the new version, commit state and time stamp |
| `ApprovalEndpoint.Decline` | backend/app/api/run_routes.py:79-106 | A rejection is returned only for a run that is FAILED with its gate rejected; undisturbed it rejects exactly a run that awaits approval and leaves any other alone |
| `ApprovalEndpoint.ExecuteAndBundle` | backend/app/integrations/pdx_engine.py:301-494 | The bundler's steps in order up to the one that fails, then the drops of the files it uploaded; undisturbed, success leaves exactly the bundle staged as pending, and failure exactly the files the disk refused to delete and the artifact records and blobs written so far |
| `ApprovalEndpoint.UploadBundle` | backend/app/integrations/pdx_engine.py:353-455 | The files of a prefix of the bundle are created in order, up to the one that fails; undisturbed, only file records are added, and existing ones stay |
| `ApprovalEndpoint.StageArtifacts` | backend/app/integrations/pdx_engine.py:457-474 | Each blob is stored immediately before its artifact record in this bundler's own steps; undisturbed exactly these records are pending and these blobs added |
| `ApprovalEndpoint.UploadAndStage` | backend/app/integrations/pdx_engine.py:353-474 | All uploads come before the first artifact record, and both stop at the step that raises |
| `ApprovalEndpoint.DropCreated` | backend/app/integrations/pdx_engine.py:475-481 | One drop for each created file the disk lets go; undisturbed these files are gone and nothing else changes |
| `ApprovalEndpoint.ScanAndReconcile` | backend/app/services/deliverable_service.py:710-726 | A run is counted as reconciled only when it is settled, and an abort is only of what was read, under an expired lease or naming nothing; undisturbed, exactly a run whose lease ran out or whose lost commit is thirty seconds old is looked at, and the outcome is that of the unforced reconciliation |
| `ApprovalEndpoint.SweepArtifactCleanups` | backend/app/services/deliverable_service.py:728-789 | Among any other steps no more than a batch is swept, some only of a failed run, and every blob of a run that has not failed is kept. Undisturbed, each of the smaller of batch and waiting jobs is taken once: with a disk that removes, a due one is done, counted and its blob gone; with one that refuses it has one more retry, and its blob; every other job, blob and the run are as before |
| `ApprovalEndpoint.SweepOfDueJobs` | backend/app/services/deliverable_service.py:728-789 | Of a batch of due jobs all count and exactly their blobs go under a disk that removes; none counts and every blob stays under one that refuses |
| `ApprovalEndpoint.LargeBatchListsAll` | backend/app/services/storage.py:4193-4202 | A batch as large as the waiting jobs takes every one of them |
| `ApprovalEndpoint.SweepJob` | backend/app/services/deliverable_service.py:735-787 | One job: among other steps done means a finished job of a failed run; undisturbed a job that is not due is left alone, and of a due one the new job, the blobs and the answer are given for either disk |
| `ApprovalEndpoint.DeleteAndReport` | backend/app/services/deliverable_service.py:755-787 | Done is reported only for a finished job of a failed run; undisturbed the job and the blobs are given for either disk |
| `ApprovalStore.MemoryStore.StageFile` | backend/app/services/file_service.py:160-204 | The loop or method equals the protocol's step: it creates the file record when absent |
| `ApprovalStore.MemoryStore.StageArtifact` | backend/app/services/storage.py:3476-3482 | The loop or method equals the protocol's step: it overwrites the artifact record whatever the run's state |
| `ApprovalStore.MemoryStore.ShareOutputs` | backend/app/integrations/pdx_engine.py:484-494 | The step of the protocol: the in-memory store hands out the live run, so the bundler's assignment is visible at once |
| `ApprovalStore.MemoryStore.CompareAndSwapRunStatus` | backend/app/services/storage.py:2359-2383 | The loop or method equals the protocol's step: it changes the run exactly when the status is the expected one |
| `ApprovalStore.MemoryStore.Claim` | backend/app/services/storage.py:2359-2383 | The loop or method equals the protocol's step: it is accepted exactly on the expected status and installs token and lease |
| `ApprovalStore.MemoryStore.Rollback` | backend/app/services/storage.py:2359-2383 | The loop or method equals the protocol's step: it reopens a RUNNING run |
| `ApprovalStore.MemoryStore.MarkUncertain` | backend/app/services/storage.py:2359-2383 | The loop or method equals the protocol's step: it stamps a RUNNING run |
| `ApprovalStore.MemoryStore.PublishAll` | backend/app/services/storage.py:3926-3941 | The loop or method equals the protocol's step: it publishes the records of the list and their mirrors, and no other |
| `ApprovalStore.MemoryStore.PublishIfAccepted` | backend/app/services/storage.py:3855-3975 | The loop or method equals the protocol's step: it publishes all or nothing |
| `ApprovalStore.MemoryStore.ApproveGateAndPublishArtifacts` | backend/app/services/storage.py:3855-3975 | The loop or method equals the protocol's step: it commits run, gate, artifacts and files in one step, when RUNNING, approving, with this token and every target pending |
| `ApprovalStore.MemoryStore.RejectGateAndFailArtifacts` | backend/app/services/storage.py:3977-4059 | The loop or method equals the protocol's step: it needs AWAITING_APPROVAL and withdraws the deliverables |
| `ApprovalStore.MemoryStore.ReconcileAsCompleted` | backend/app/services/storage.py:3271-3408 | The loop or method equals the protocol's step: it settles as COMPLETED only a RUNNING run that is fully published |
| `ApprovalStore.MemoryStore.ReconcileAsFailed` | backend/app/services/storage.py:3271-3408 | The loop or method equals the protocol's step: it settles as FAILED with its cleanup jobs in the same step |
| `ApprovalStore.MemoryStore.EnqueueAll` | backend/app/services/storage.py:3384-3404 | The loop or method equals the protocol's step: it enqueues each item once by artifact and version |
| `ApprovalStore.MemoryStore.ClaimArtifactCleanupJob` | backend/app/services/storage.py:4061-4111 | The loop or method equals the protocol's step: it claims a waiting job that is due, blocking its records |
| `ApprovalStore.MemoryStore.CancelArtifactCleanupJob` | backend/app/services/storage.py:4253-4279 | The loop or method equals the protocol's step: it cancels a job and restores its records |
| `ApprovalStore.MemoryStore.DeleteArtifactBlob` | backend/app/services/storage.py:3560-3570 | The loop or method equals the protocol's step: it removes the blob or reports that it did not |
| `ApprovalStore.MemoryStore.CompleteArtifactCleanup` | backend/app/services/storage.py:4204-4251 | The loop or method equals the protocol's step: it finishes a job only for the holder of its lease and version |
| `ApprovalStore.MemoryStore.RecordCleanupFailure` | backend/app/services/storage.py:4113-4166 | The loop or method equals the protocol's step: it counts a retry with capped exponential delay, or gives up |
| `ChatRuns.ExactlyOnceAlways` | backend/app/api/chat_routes.py:387-830 | For one key, over any attempts with crashes, takeovers and retries: at most one user message, one reply, one run; recorded ids are absent or derived and name existing objects; a COMPLETED record finds its user message |
| `ChatRuns.EvolvesAlways` | backend/app/services/storage.py:1253-1324 | Messages and runs only grow, versions never fall, equal versions mean equal records, and a COMPLETED record is frozen: a failure trap after a lost answer cannot reopen it, because completion clears the owner |
| `ChatRuns.OneWritePerVersion` | backend/app/services/storage.py:1280-1286 | Of all writes that expect one version at most one is accepted |
| `ChatRuns.OneCompletion` | backend/app/api/chat_routes.py:818-823 | At most one attempt records completion, and no fenced write is accepted afterwards |
| `ChatRuns.FencedForGood` | backend/app/api/chat_routes.py:140-164 | After takeover, failure or completion no write of the old owner is accepted, late heartbeats included |
| `ChatRuns.HeldMeansUntouched` | backend/app/services/storage.py:1280-1295 | While an owner still holds the record nobody else has written it |
| `ChatRuns.LeaseKeepsOthersOut` | backend/app/api/chat_routes.py:140-164 | Until two minutes after it got in or last renewed, an owner that has not ended its work holds a record that has not expired, however the clock moves and whatever others do, and every acquisition or retry by another is refused |
| `ChatRuns.EnteredOneWay` | backend/app/api/chat_routes.py:400-458 | An owner got in by one way only: a new record, a takeover or a retry |
| `ChatRuns.InvAlways` | backend/app/api/chat_routes.py:400-458 | The invariant of messages, runs and record holds at every point of every run |
| `ChatHeartbeat.IdempotencyHeartbeat` | backend/app/api/chat_routes.py:122-228 | On normal exit the tracker's version is the stored one; on 409 the owner no longer holds the record; 503 only if the store failed; a thread that outlives the join cannot revive the record. After a normal exit every round has renewed, and the last lease is two minutes long; undisturbed a live lease always gets there, by exactly these renewals, and one that had run out is revoked at the first round |
| `ChatHeartbeat.Renew` | backend/app/api/chat_routes.py:140-164 | A turn leaves the tracker unhealthy, or the owner with a fresh lease of two minutes under the next version; an undisturbed turn of a live owner moves the lease to two minutes from now, counts one version and changes nothing else |
| `ChatHeartbeat.RunTurns` | backend/app/api/chat_routes.py:140-164 | While the tracker is healthy every turn has been an accepted renewal, among any steps of others; undisturbed there is one accepted renewal for each |
| `ChatHeartbeat.Revoke` | backend/app/api/chat_routes.py:177-228 | Revocation by owner, without a version, ends the owner's hold or reports the store unavailable; undisturbed the record is FAILED without owner and lease, or as it was if another held it |
| `ChatHeartbeat.FencedCheckpoint` | backend/app/api/chat_routes.py:465-504 | A checkpoint that continues leaves tracker and record in step with the status written; otherwise 409, or a store failure; undisturbed it continues exactly for a live owner with a healthy tracker, and the new record is given |
| `ChatEndpoint.ExecuteChat` | backend/app/api/chat_routes.py:249-880 | Every response is backed by the store: record COMPLETED, every object handed out exists with its derived id, and sender and payload agree unless the history shows an accepted takeover by this owner; a failure of an attempt that got in has ended its hold, in a store that answers, unless it ended in a refused save of the run. In a store that works, a request finds the key free (new, FAILED with its sender and payload, or expired) and gets exactly the ids of its intent and a COMPLETED record, or is refused with 403 for another sender and 409 for another payload or work in progress, or gets the completed response again, the record unchanged in all of these |
| `ChatEndpoint.Enter` | backend/app/api/chat_routes.py:400-458 | Whoever gets in holds the record with a live lease, and the history shows the accepted step of that way in; sender and payload agree in every way but a takeover. In a store that works a FAILED record with this sender and payload is retried, an expired one taken over, and any other refused with 403 or 409, or replayed, and left as it is |
| `ChatEndpoint.Replay` | backend/app/api/chat_routes.py:419-435 | A COMPLETED record always replays: the objects it records, with its user message found |
| `ChatEndpoint.RetryFailed` | backend/app/api/chat_routes.py:444-456 | Only one retry of a failed record wins, by an accepted retry with a new owner; in a store that works it does win |
| `ChatEndpoint.UserStep` | backend/app/api/chat_routes.py:508-525 | Afterwards the user message exists once, found or inserted, and the owner is still in step; undisturbed exactly that message and its id in the record are new |
| `ChatEndpoint.RunStep` | backend/app/api/chat_routes.py:732-771 | Afterwards the run exists once; failures are 409 or 503, and a heartbeat that did not stop in time ends in one of them unless the run was there already; undisturbed, run, recorded id and renewed lease are all that is new |
| `ChatEndpoint.SaveAndRecordRun` | backend/app/api/chat_routes.py:766-771 | A storage conflict is the refused save of this run, and undisturbed a stale version or expired lease always is one; a live owner's save goes through |
| `ChatEndpoint.AgentStep` | backend/app/api/chat_routes.py:773-816 | Afterwards the reply exists once, found or inserted; undisturbed exactly that message and its id in the record are new |
| `ChatEndpoint.Complete` | backend/app/api/chat_routes.py:818-823 | The final checkpoint leaves the record COMPLETED, and undisturbed without owner and lease and with the ids it was given |
| `ChatEndpoint.Work` | backend/app/api/chat_routes.py:506-829 | Work that finishes leaves a response backed by the store, for every kind of request; undisturbed it does finish and the whole new store is given, and a heartbeat that cannot be joined or a model that raises ends it as it should |
| `ChatEndpoint.Trap` | backend/app/api/chat_routes.py:830-880 | A trap whose answer arrived leaves the record out of the owner's hands; in a store that works it is FAILED and nothing else changed; a storage conflict skips it |
| `ChatEndpoint.TakeoverIgnoresPayload` | backend/app/services/storage.py:1128-1143 | Shortfall: taking over an expired lease does not compare payloads, so a reused key inherits the first payload |
| `ChatEndpoint.ReusedKeyKeepsFirstPayload` | backend/app/services/storage.py:1128-1143 | Shortfall: a run in which a request with another payload takes the key over and completes it, and the key then answers the first payload only |
| `ChatStore.Store.AcquireChatIdempotency` | backend/app/services/storage.py:1111-1161 | Creates the record, takes over an expired lease with a new owner, or returns what is there |
| `ChatStore.Store.TransitionFailedToInProgress` | backend/app/services/storage.py:1163-1208 | The retry is accepted for a failed record or an expired lease, with a new owner and version |
| `ChatStore.Store.UpdateChatIdempotencyFenced` | backend/app/services/storage.py:1253-1324 | The fenced write, with any fate of write and answer: applied whole or not at all |
| `ChatStore.Store.InsertMessage` | backend/app/services/storage.py:945-953 | A message is inserted only when its id is absent |
| `ChatStore.Store.SaveRunFenced` | backend/app/services/storage.py:2237-2319 | A run is saved only under the live lease and version, and only when absent |
| `UploadRuns.WriteIsSafeIffNotEndangered` | backend/app/services/file_service.py:207-231 | Writing the blob can never lead to an orphan, whatever happens later, if and only if the record exists at the write and no cleaner that has already wiped can still forget it |
| `UploadRuns.NoOrphanUnlessLateWrite` | backend/app/services/file_service.py:203-263 | No blob is without a record at any point of any run without a late write, whatever crashes |
| `UploadRuns.NoOrphanIfClaimsWait` | backend/app/services/file_service.py:624-665 | With cleaners that claim only after the writer stopped, no run has an orphan |
| `UploadRuns.CommittedHasBlob` | backend/app/services/storage.py:1705-1750 | A commit is accepted only while the blob is there |
| `UploadRuns.CommittedStaysUnlessPurged` | backend/app/services/file_service.py:95-133 | Neither a compensation nor a cleaner ever removes a committed file's record or blob: only its owner's deletion does |
| `UploadRuns.ClaimedIsNeverCommitted` | backend/app/services/storage.py:1479-1543 | Once a cleaner has claimed an intent it is never committed |
| `UploadRuns.RunningUploadIsLeftAlone` | backend/app/services/storage.py:1479-1543 | As long as an upload is pending no claim of a cleaner is accepted within a minute of its intent, or within the renewed time of its last renewal |
| `UploadRuns.StalledWriterOrphans` | backend/app/services/file_service.py:198-231 | Shortfall: a writer that stalls past its grace period can be overtaken by a whole cleanup and leave an orphan |
| `UploadRuns.StaleCopyRevivesRecord` | backend/app/services/file_service.py:577-616 | Shortfall: a run in which a deletion takes blob and record away and a later one that fails saves its old copy back: a record with no file, queued for cleanup and not listed |
| `UploadRuns.GoneIsBackIffSavedBack` | backend/app/services/file_service.py:577-616 | A record that is gone once its writer is done is there later if and only if a failed deletion saved a copy back in between and nothing took that away; it is then committed, queued for cleanup and without a blob |
| `UploadRuns.GoneStaysGoneIffNothingSavedBack` | backend/app/services/file_service.py:577-616 | It stays gone if and only if no deletion saves a copy back meanwhile |
| `UploadStore.UploadFile` | backend/app/services/file_service.py:136-284 | Success means the file was committed with its blob; failure means not committed, and no blob unless the disk refused. A write that raises ends as such, a heartbeat that could not be joined or whose last turn raised never as success; undisturbed the outcome, the committed record, or the failed and queued one, are given field by field |
| `UploadStore.WriteUnderHeartbeat` | backend/app/services/file_service.py:207-239 | A healthy verdict means the heartbeat thread had stopped in time with its last turn answered; undisturbed the verdict is exactly that, and blob and lease are given |
| `UploadStore.HeartbeatLoop` | backend/app/services/file_service.py:56-83 | A loop that stopped by itself ended in a refused renewal and is unhealthy, among any steps of others; one that did not is healthy exactly if its last turn was answered; undisturbed, renewals of an intent that is ours change its lease only, to thirty seconds from now |
| `UploadStore.Renew` | backend/app/services/file_service.py:60-83 | One answered renewal: accepted exactly for a pending intent of ours that no cleaner has touched, it clears earlier failures and moves the lease; refused it stops the heartbeat unhealthy |
| `UploadStore.CompensateFailedIntent` | backend/app/services/file_service.py:96-133 | Blob first, intent only once the blob is gone; a disk that refuses leaves exactly the failed record, queued for cleanup |
| `UploadStore.CommitOrRollBack` | backend/app/services/file_service.py:250-263 | Among any steps of others the upload succeeds exactly when its commit was accepted at the recorded step; a refused one is rolled back |
| `UploadStore.CleanFile` | backend/app/services/file_service.py:618-679 | Undisturbed, a record that is not up for cleaning (a live upload, a retry that is not due, another cleaner's lease, too many retries) is left alone with its blob; any other loses blob and record, or is put off with one more retry, a doubled delay and an end |
| `UploadStore.TakeFile` | backend/app/services/file_service.py:627-642 | A file is marked for deletion only under the cleaner's own lease; undisturbed exactly when it is up for cleaning, and the new record is given |
| `UploadStore.WipeAndForget` | backend/app/services/file_service.py:644-665 | The record goes only after the blob and only under the lease |
| `UploadStore.GiveBack` | backend/app/services/file_service.py:666-679 | A refused deletion is released with one more retry and a doubled delay, the fifth time for good, and only under the lease |
| `UploadStore.CleanupDelays` | backend/app/services/file_service.py:666-679 | The delay is ten seconds after the first refusal and doubles with each further one |
| `UploadStore.DeleteFilePermanently` | backend/app/services/file_service.py:577-616 | Among any other steps, another deletion's included: the owner's deletion removes the blob first and the record after it; if the disk refuses, exactly the caller's copy of the record, however old, is saved back and queued for cleanup, and the blob stays as it was |
| `UploadStore.FileStore.CommitUploadedFile` | backend/app/services/storage.py:1705-1750 | The commit is accepted exactly for a pending intent with this token that no cleaner has touched, and clears token and lease |
| `UploadStore.FileStore.DeleteUploadIntentIfOwned` | backend/app/services/storage.py:1363-1399 | The intent is dropped exactly while it is pending under this token and no cleaner holds it |
| `UploadStore.FileStore.MarkUploadFailedIfOwned` | backend/app/services/storage.py:1401-1438 | The intent is marked failed and queued exactly while it is pending under this token and no cleaner holds it |
| `UploadStore.FileStore.ClaimCleanupFile` | backend/app/services/storage.py:1479-1543 | A claim succeeds exactly for a record that is up for cleaning, told in its fields and the clock, and installs a fresh token and a lease of a minute |
| `Limiter.DiagnosisRateLimiter.CheckAndRecord` | backend/app/services/diagnosis_service.py:175-205 | The whole new state for any clock reading; deques never outgrow their limits; with readings that do not go back the answer is that of counting all accepted requests in [now - 60, now]; a rejection changes no count |
| `Limiter.NoWindowOverflows` | backend/app/services/diagnosis_service.py:153-160 | With readings that do not go back no closed stretch of sixty seconds holds more acceptances than the user or space limit |
| `Limiter.LimiterNeverOverflows` | backend/app/services/diagnosis_service.py:153-205 | The same of the limiter object and its own log |
| `Limiter.PruningCounts` | backend/app/services/diagnosis_service.py:180-186 | What is left of a pruned deque is exactly the full log's window |
| `Limiter.OrderedReadingsRefine` | backend/app/services/diagnosis_service.py:175-205 | With readings that do not go back the deques let through exactly what counting in the full log does, and every deque stays in step with it |
| `Limiter.VerdictIsTheLogs` | backend/app/services/diagnosis_service.py:188-202 | The comparison of deque lengths decides as the full log would |
| `Limiter.DequesFit` | backend/app/services/diagnosis_service.py:188-205 | In whatever order readings come a deque never exceeds its limit |
| `Limiter.DiagnosisRateLimiter.Admit` | backend/app/services/diagnosis_service.py:179-205 | Both deques are pruned even when the call is turned away; time is added to both or to neither |
| `Limiter.DiagnosisRateLimiter.Reset` | backend/app/services/diagnosis_service.py:170-173 | Forgets every request |
| `Limiter.Prune` | backend/app/services/diagnosis_service.py:181-182 | Popping from the left while older than the cutoff is the pruning of the specification |
| `LimiterOverflow.StaleReadings` | backend/app/services/diagnosis_service.py:176-179 | Shortfall: the clock is read before the lock; for any limits that admit anyone, and either key, a run of the object lets one request too many into a minute |
| `LimiterOverflow.OverflowsIffItAdmitsAnyone` | backend/app/services/diagnosis_service.py:175-205 | Some order of the readings exceeds a limit in sixty seconds if and only if both limits are at least one: every limiter that admits anyone can be made to overflow |
| `LimiterOverflow.TurnedAwayPrunes` | backend/app/services/diagnosis_service.py:179-202 | The reason: a call that is turned away for its other key still prunes this key's deque by its own reading |
| `PermitsProtocol.PermitsBalanceAlways` | backend/app/services/diagnosis_service.py:734-759 | In every interleaving of submission, completion, timeout, cancellation and failure: free, outstanding and discussed permits sum to the capacity; no call is released twice or early; unfinished futures never exceed the capacity |
| `PermitsProtocol.InvStep` | backend/app/agent/brain.py:186-241 | Every step of every caller and worker keeps that account |
| `PermitsProtocol.ReleasedOnceForGood` | backend/app/agent/brain.py:233-235 | A call whose permit came back keeps exactly one release |
| `PermitsProtocol.QuiescentPoolIsWholeIffNothingDiscussed` | backend/app/agent/brain.py:500-509 | Once all calls are over the semaphore is whole again if and only if no discussion took a permit |
| `PermitsProtocol.DiscussionsStarveForGood` | backend/app/agent/brain.py:500-509 | Permits taken by discussions never come back; once all are taken nobody is admitted again |
| `PermitsProtocol.DiscussionsUseUpThePool` | backend/app/agent/brain.py:53-58 | As many discussions as there are permits are enough for that |
| `Permits.Bulkhead.TryGeminiDiagnosis` | backend/app/services/diagnosis_service.py:734-759 | However the call ends, its permit is back once or its future's callback will return it; it is turned away exactly when no permit was free as it asked, and times out exactly when its future was not done as it looked; a quiet call ends exactly so |
| `Permits.Bulkhead.Infer` | backend/app/agent/brain.py:186-357 | The flag and the finally clause give the permit back exactly when no future took it over; refusal, failure and time-out each have their exact cause at the recorded step; the deliverable call (391-448) differs only in not cancelling |
| `Permits.Bulkhead.SubmitAndAttach` | backend/app/agent/brain.py:233-235 | A future that finishes before its callback is attached still returns the permit |
| `Permits.Bulkhead.Await` | backend/app/agent/brain.py:237-241 | The answer is there exactly if the future was done as it was asked; a timed-out future that is cancelled is running or done, never left queued |
| `Permits.Bulkhead.TryAcquire` | backend/app/agent/brain.py:187-194 | A call is turned away exactly when no permit is free |
| `TextChunks.IngestTxt` | backend/app/integrations/prodocux_facade.py:631-676 | Chunks are the one greedy grouping of the trimmed paragraphs; each is the slice its offsets name, and together, with the delimiters between, they are the joined paragraphs, which hold every character of the text that is not white space, in order; the page count is one too many exactly when the last chunk is full |
| `TextChunks.Gather` | backend/app/integrations/prodocux_facade.py:646-675 | The accumulating loop: paragraphs in order, each group stopping at the paragraph that makes it long |
| `TextChunks.GreedyIsUnique` | backend/app/integrations/prodocux_facade.py:652-664 | All groups but the last long and none long before its last paragraph: that leaves only one grouping |
| `TextChunks.FinalizeChunks` | backend/app/integrations/prodocux_facade.py:194-235 | Every chunk gets its ordinal, identifier and the offsets of its text |
| `TextChunks.OffsetsSlice` | backend/app/integrations/prodocux_facade.py:222-233 | The offsets of a chunk cut exactly its text out of the joined document |
| `TextChunks.JoinOfJoins` | backend/app/integrations/prodocux_facade.py:646-665 | Joining the chunk texts is joining the paragraphs |
| `TextChunks.ChunkIdsAreUnambiguous` | backend/app/integrations/prodocux_facade.py:210-210 | File, generation and ordinal can be read off a chunk identifier, so no two chunks share one |
| `TextChunks.StreamKeepsParagraphs` | backend/app/integrations/prodocux_facade.py:645-646 | Ingesting the joined document again finds the same paragraphs |
| `TextChunks.ParagraphsKeepInk` | backend/app/integrations/prodocux_facade.py:644-645 | Normalising, splitting and trimming lose nothing but white space |
| `TextChunks.LineEndsDoNotMatter` | backend/app/integrations/prodocux_facade.py:644-645 | A document has the same paragraphs whether its lines end in a line feed, a carriage return or both |
| `PyText.StripDropsOnlySpace` | backend/app/integrations/prodocux_facade.py:645-645 | Trimming drops white space at both ends and nothing else, and leaves nothing exactly of a blank string |
| `ScriptChunks.IngestFdx` | backend/app/integrations/prodocux_facade.py:308-350 | The chunks' lines in order are the formatted non-empty paragraphs; scenes are numbered 1 to n, every one after the first opens with its heading, there are as many as headings, and one more if the script does not start with one; the count is max(1, n) |
| `ScriptChunks.Take` | backend/app/integrations/prodocux_facade.py:312-337 | One paragraph: a heading closes the open scene if it has lines and opens the next |
| `ScriptChunks.ScenesAreUnique` | backend/app/integrations/prodocux_facade.py:319-337 | Headings only at the start of scenes: that leaves only one way to cut |
| `ScriptChunks.ScenesAreCounted` | backend/app/integrations/prodocux_facade.py:324-341 | One scene for each heading, and one more if the script does not start with one |
| `ScriptChunks.LineReadsBackIffPlain` | backend/app/integrations/prodocux_facade.py:336-338 | Type and text can be read off a line if and only if the type holds no closing bracket |
| `ScriptChunks.TextOfParagraph` | backend/app/integrations/prodocux_facade.py:319-322 | The text of a paragraph is that of its nodes in order up to the white space at both ends; it is dropped exactly if blank |
| `RowBatches.IngestCsv` | backend/app/integrations/prodocux_facade.py:463-495 | Refused exactly if every cell is blank; otherwise the batches of at most 25 hold every row after the header, or all if there is none after it, once in order, each shown under the header; their number is the page count |
| `RowBatches.BatchRows` | backend/app/integrations/prodocux_facade.py:468-486 | Batch k is rows 25k on, labelled from 25k + header + 1; there are ceil(n / 25) |
| `RowBatches.LocatorsExactIffBodyFollowsHeader` | backend/app/integrations/prodocux_facade.py:468-476 | Labels are the sheet's row numbers if and only if some row follows the header; a sheet that is only its header is labelled one too far |
| `RowBatches.BatchesAreContiguous` | backend/app/integrations/prodocux_facade.py:473-476 | One batch ends where the next begins |
| `RowBatches.BatchesCover` | backend/app/integrations/prodocux_facade.py:549-569 | The batches together are the body, in the workbook reader as in the CSV reader |
| `Evidence.BuildContextForDiscussion` | backend/app/services/document_context_service.py:118-217 | Each document gives the longest prefix of its readable chunks that fits what the documents before it left; tokens sum to the total, within the budget; coverage is full exactly at 99 percent; fewer than 100 chunks and full means all |
| `Evidence.PackItems` | backend/app/services/document_context_service.py:163-191 | One document's loop stops at the first chunk that no longer fits, and that prefix is the longest that fits |
| `Evidence.PackDocuments` | backend/app/services/document_context_service.py:148-193 | A document that ran out of budget does not stop later ones |
| `Evidence.GreedyIsUnique` | backend/app/services/document_context_service.py:148-193 | Documents and budget determine what is packed |
| `Evidence.WithinBudget` | backend/app/services/document_context_service.py:170-174 | What is packed costs no more than the budget |
| `Evidence.PackedIsAvailable` | backend/app/services/document_context_service.py:158-191 | No more chunks are packed than the ready documents have |
| `Evidence.FullMeansAllIffFewerThanHundred` | backend/app/services/document_context_service.py:195-198 | Full coverage means every chunk if and only if there are fewer than a hundred |
| `Evidence.SortingSorts` | backend/app/services/document_context_service.py:161-161 | Chunks are ordered by page and ordinal |
| `Evidence.ItemOfChunk` | backend/app/services/document_context_service.py:163-168 | A chunk is packed under its id, as its normalized or else raw text, trimmed, with its recorded token count or else the estimate |
| `Evidence.TokensByCharacters` | backend/app/services/document_context_service.py:69-75 | The estimate in whole numbers: three tokens to two ideographs and five to nineteen other characters, rounded down over the whole |
| `Traceparent.RoundTripIffFlagsFit` | backend/app/core/otel.py:101-113 | A printed valid context reads back as itself if its flags fit in a byte, and as nothing if not |
| `Traceparent.PrintOfParsed` | backend/app/core/otel.py:116-135 | Printing an extracted context gives the trimmed, lower-cased header back; it is valid exactly when both ids are non-zero |
| `Traceparent.HeadersAreUnambiguous` | backend/app/core/otel.py:106-112 | Two contexts that print alike are the same |
| `Traceparent.Carrier.InjectTraceparent` | backend/app/core/otel.py:101-135 | What a valid active context injects is what extraction finds, whatever the carrier held; without one the carrier stays |
| `Numerals.ValueOfPadded` | backend/app/core/otel.py:109-111 | Reading a padded numeral gives the number, in base ten and sixteen |
| `Numerals.PaddedOfValue` | backend/app/core/otel.py:128-132 | Printing what was read gives the digits back |
| `LineageGraph.LineageIsClosed` | backend/app/services/lineage_service.py:17-147 | Both ends of every edge are nodes, whatever the records say |
| `LineageGraph.NodesAreExactly` | backend/app/services/lineage_service.py:20-147 | The nodes are exactly the files, runs and gates |
| `LineageTheorems.NodesAreCounted` | backend/app/services/lineage_service.py:20-147 | With identifiers that do not clash node ids are distinct and number files plus runs plus gated runs |
| `LineageTheorems.EveryArtifactHasAnOrigin` | backend/app/services/lineage_service.py:90-147 | As soon as there is a run or a source every artifact has an incoming edge |
| `LineageTheorems.EdgesAreExactly` | backend/app/services/lineage_service.py:68-147 | Exactly which edges say where a gate or an artifact comes from: the run's gate, the claimed outputs of gate or run, and the left-overs on their anchor |
| `LineageRecords.OutputsComeFrom` | backend/app/services/lineage_service.py:90-147 | The same told from the fields of files and runs: outputs by their own run id, the run's list or its manifest, hanging on gate or run; left-overs on the last run, else the first upload or extract |
| `LineageRecords.RunsWorkOn` | backend/app/services/lineage_service.py:38-66 | A run works on its own source if that is in the graph by then, else on the first of its plan's sources that is |
| `LineageRecords.NodesAreTheRecords` | backend/app/services/lineage_service.py:20-147 | With identifiers that do not clash the nodes are exactly the files, runs and gates, each shown as what it is |
| `LineageTheorems.RunHangsOnItsSource` | backend/app/services/lineage_service.py:51-66 | A run whose own source is an upload or extract hangs on it |
| `LineageCycles.EdgesRiseIffRunsHangOnSources` | backend/app/services/lineage_service.py:51-147 | Sources lead to runs, runs to gates and these to artifacts if and only if every run that its records connect to something is connected to an upload or extract |
| `LineageCycles.AnalysesAreExactly` | backend/app/services/lineage_service.py:38-66 | Exactly which edges say what a run works on: its own source if it is an upload, extract, earlier run, earlier gate, earlier claimed output or the run itself, else the plan's first such |
| `LineageCycles.CycleIffRunsFeedInACircle` | backend/app/services/lineage_service.py:38-147 | The graph has a cycle if and only if runs feed each other in a circle, each working on the run, gate or claimed output of the one before |
| `LineageCycles.OwnProductClosesACycle` | backend/app/services/lineage_service.py:51-116 | In particular a run that works on itself or on an output that it claims closes a cycle |
| `LineageTheorems.LineageIsAcyclic` | backend/app/services/lineage_service.py:51-147 | When runs name only uploads and extracts as sources no path comes back to its start |
| `LineageService.OutputAsSourceMakesACycle` | backend/app/services/lineage_service.py:51-116 | That condition is needed: a run that takes an earlier output as source and claims it as output closes a cycle |
| `LineageService.GetSpaceLineage` | backend/app/services/lineage_service.py:12-147 | The loops build that graph: closed, complete, without repetition when identifiers do not clash |
| `LineageService.AddRunAndGate` | backend/app/services/lineage_service.py:38-88 | One run's node, its edge from a known source, its gate |
| `LineageService.AddRunArtifacts` | backend/app/services/lineage_service.py:90-116 | Claimed outputs become nodes once and get their edge each time |
| `LineageService.AddRemainingArtifacts` | backend/app/services/lineage_service.py:118-147 | Left-over artifacts hang on the last run, else the first source |
| `LineageService.SourceInPlan` | backend/app/services/lineage_service.py:54-58 | The first of the plan's sources that is a node |
| `Handoff.CinemaSchedule` | backend/app/integrations/pdx_engine.py:168-187 | Shoot days run from 1 to the total without a gap, in order, at most two scenes each |
| `Handoff.LocationOfScene` | backend/app/integrations/pdx_engine.py:180-196 | From scene to unit: the first location, trimmed, the main unit if it is blank or there is none, the sound stage if the scene names no locations |
| `Handoff.LeadOfScene` | backend/app/integrations/pdx_engine.py:178-202 | From scene to lead: the first cast entry that is a name, unassigned if there is none or the scene names no cast; a scene without a number takes its place in the list |
| `Handoff.LocationIsFirstPart` | backend/app/integrations/pdx_engine.py:196-196 | A row is shot at what stands before the first comma, or with the main unit |
| `Handoff.LeadIsFirstRealName` | backend/app/integrations/pdx_engine.py:200-202 | The lead is the first of the cast that is neither blank nor the placeholder, or unassigned |
| `Handoff.UnitNamesAreUnambiguous` | backend/app/integrations/pdx_engine.py:206-206 | Number and location can be read off a unit's name |
| `Handoff.HandoffUnits` | backend/app/integrations/pdx_engine.py:190-218 | Units follow the locations' first occurrence, hold their scenes in schedule order, are led by the first row's first name, and together hold the schedule's scene numbers; an empty schedule gives the general unit |
| `Handoff.GroupRows` | backend/app/integrations/pdx_engine.py:193-203 | The dictionaries after the loop: insertion order, scenes and leads per location |
| `Handoff.LeadIsOfFirstRow` | backend/app/integrations/pdx_engine.py:199-203 | The lead comes from the first row of the location |
| `Handoff.LocationsComeInOrder` | backend/app/integrations/pdx_engine.py:193-203 | A unit's location comes before another's exactly when its first row in the schedule does |
| `Handoff.ScenesAreConserved` | backend/app/integrations/pdx_engine.py:195-198 | Grouping keeps every scene number as often as the schedule has it |
| `Handoff.UnitsHoldTheSchedule` | backend/app/integrations/pdx_engine.py:204-211 | No scene is lost and none is given to two units |
| `Traffic.ParsersAgree` | scripts/parse_traffic.py:16-111 | Whenever allocations are accepted: shares sum to 100, the primary parser succeeds with a listed revision, the one above half if any, and a largest one if any has half; without shares both name the latest ready revision |
| `Traffic.ParseTrafficAllocations` | scripts/parse_traffic.py:16-65 | The accumulating loop: first error wins, only positive shares are collected |
| `Traffic.CollectPairs` | scripts/parse_traffic.py:37-55 | Pairs and total of the entries in order, or the first entry's error |
| `Traffic.WholePercents` | scripts/parse_traffic.py:38-53 | An entry with a whole-number percentage: out of range exactly outside 0 to 100, no share exactly at zero, else a share of the name as it stands, or an error if that is missing or blank |
| `Traffic.PercentsCountAsRead` | scripts/parse_traffic.py:38-53 | Any percentage counts as the whole number it is read as; null counts as no share; one that cannot be read is an error |
| `Traffic.OtherPercents` | scripts/parse_traffic.py:41-45 | A real number is read as its whole part towards zero, a boolean as one or zero, a string as the number it holds; lists and dictionaries cannot be read |
| `Traffic.ParsePrimaryRevision` | scripts/parse_traffic.py:68-111 | First entry with half, else first with a share, else latest |
| `Traffic.LatestServesAll` | scripts/parse_traffic.py:57-65 | Without traffic entries the trimmed latest ready revision serves everything, or nothing does if it is missing or blank |
| `Traffic.FindCarrying` | scripts/parse_traffic.py:82-104 | The search stops at the first entry that carries so much |
| `Traffic.PrintedReadsBackIffPlain` | scripts/parse_traffic.py:53-59 | The printed shares read back as the collected pairs if and only if no name holds a comma or an equals sign |
| `Traffic.CarryingArePairs` | scripts/parse_traffic.py:38-104 | Once allocations are accepted, the entries either parser counts are the same |
| `Traffic.HalfIsMaximal` | scripts/parse_traffic.py:80-92 | With shares that sum to 100, a share of half is maximal and one above half is the only one |
| `Traffic.RollbackRestoresShares` | scripts/parse_traffic.py:159-182 | A rollback built from accepted shares asks for exactly those shares |
| `Traffic.RollbackTarget` | scripts/parse_traffic.py:159-182 | The command asks for the allocation, else for the whole of the primary revision, and is refused exactly if both are empty |

## Left out

- Several runs in one store, runs without a gate, `retry_run`, linked action executions and the compensation in
  `execute_action`: other paths to the same tables, outside the approval invariant.
- Space and run ownership checks, activity events, the outbox, metrics and the messages posted after a decision: they do
  not feed back into the protocols.
- The Firestore store: its transactions are taken to be the same atomic steps; its mapping of conflicts is not modelled.
- Chat requests without a client message id, the fallback that looks a message up by client id, and the content of
  messages: identities only.
- Model calls, network, disk and object storage: each succeeds, fails or loses its answer, as a parameter.
- ApprovalEndpoint.AfterLostAnswer: does not say what becomes of a live lease when others take steps, because they may
  then claim, roll back or settle the run; what its reconciliation does then is said of it itself.
- Uploads under a file id that the caller supplies and that already exists.
- Floating point: clock readings, token estimates and coverage are exact reals.
- Limiter.DiagnosisRateLimiter.CheckAndRecord: does not model the Retry-After header, because it is a constant.
- Permits.Bulkhead.Infer: does not model what happens to the answer after it arrived, because the permit is settled by
  then; an asynchronous exception between attaching the callback and setting the flag is not modelled.
- Decoding bytes to text, the XML parser and its entity check, and workbook and CSV parsing: their results are inputs.
  The loop over the sheets of a workbook repeats the modelled batching for each sheet.
- Token counts, hashes and formula flags of chunks: computed on each chunk alone.
- ScriptChunks.IngestFdx: does not model Unicode upper-casing of paragraph types, because any function serves there.
- Traceparent.PrintOfParsed: does not model lower-casing beyond ASCII, because a header with other letters is not
  accepted either way; negative trace flags are not modelled.
- Evidence.BuildContextForDiscussion: does not model the evidence identifiers, which repeat when two chunks of a file
  share a page.
- Labels, hashes and timestamps of lineage nodes and the Grafana part of the answer; props, stunts and effects of the
  schedule: copied through.
- Traffic.ParsersAgree: does not model infinite percentages, because the source raises an error it does not catch;
  candidate and service URLs only look one field up.
- Dispatch generations, diagnosis claims, schema validation of model answers, PDF, Word and slide formats.
