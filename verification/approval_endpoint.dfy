/** The approval endpoint with its bundler, the scanner of stalled approvals and the sweeper. */
module ApprovalEndpoint {
  import Numerals
  import opened Options
  import opened ApprovalProtocol
  import opened ApprovalRuns
  import opened ApprovalStore
  import opened ApprovalHandlers

  // ---------------------------------------------------------------- bundler

  function BundleIds(store: MemoryStore): seq<Id> { store.bundle + [store.bundleManifest] }

  /** The bundler's own steps: one upload for each file, */
  function UploadSteps(ids: seq<Id>): seq<Op> {
    if ids == [] then [] else UploadSteps(ids[..|ids| - 1]) + [Op.StageFile(ids[|ids| - 1])]
  }

  /** then each blob and only after it its artifact record, */
  function StageSteps(ids: seq<Id>): seq<Op> {
    if ids == [] then []
    else StageSteps(ids[..|ids| - 1]) + [Op.StageBlob(ids[|ids| - 1])] + [Op.StageArtifact(ids[|ids| - 1])]
  }

  /** or, on failure, one deletion for each file that the disk does not keep. */
  function DropSteps(ids: seq<Id>, stuck: set<Id>): seq<Op> {
    if ids == [] then []
    else DropSteps(ids[..|ids| - 1], stuck) + (if ids[|ids| - 1] in stuck then [] else [Op.DropFile(ids[|ids| - 1])])
  }

  lemma OneStepMore(ids: seq<Id>, id: Id, stuck: set<Id>)
    ensures UploadSteps(ids + [id]) == UploadSteps(ids) + [Op.StageFile(id)]
    ensures StageSteps(ids + [id]) == StageSteps(ids) + [Op.StageBlob(id)] + [Op.StageArtifact(id)]
    ensures DropSteps(ids + [id], stuck) == DropSteps(ids, stuck) + (if id in stuck then [] else [Op.DropFile(id)])
  {
    assert (ids + [id])[..|ids|] == ids;
  }

  /** The file records once these ids are staged: an id that has one keeps it. */
  function WithFiles(files: map<Id, Visibility>, ids: seq<Id>): map<Id, Visibility> {
    if ids == [] then files
    else
      var before, id := WithFiles(files, ids[..|ids| - 1]), ids[|ids| - 1];
      if id in before then before else before[id := PendingApproval]
  }

  lemma WithOneFileMore(files: map<Id, Visibility>, ids: seq<Id>, id: Id)
    ensures WithFiles(files, ids + [id])
         == if id in WithFiles(files, ids) then WithFiles(files, ids) else WithFiles(files, ids)[id := PendingApproval]
  {
    assert (ids + [id])[..|ids|] == ids;
  }

  lemma {:induction false} WithFilesAt(files: map<Id, Visibility>, ids: seq<Id>)
    ensures WithFiles(files, ids).Keys == files.Keys + AsSet(ids)
    ensures forall a | a in WithFiles(files, ids) ::
              WithFiles(files, ids)[a] == if a in files then files[a] else PendingApproval
  {
    if ids != [] {
      WithFilesAt(files, ids[..|ids| - 1]);
      assert forall a :: a in ids <==> a in ids[..|ids| - 1] || a == ids[|ids| - 1];
    }
  }

  /** How many of the bundle's files are uploaded. */
  function Uploads(store: MemoryStore, failsAt: nat): nat {
    if failsAt < |BundleIds(store)| then failsAt else |BundleIds(store)|
  }

  /** The files in order, up to the one that fails. */
  method UploadBundle(store: MemoryStore, failsAt: nat) returns (created: seq<Id>)
    requires store.Valid()
    modifies store
    ensures store.Valid() && old(store.history) <= store.history
    ensures store.decisions == old(store.decisions)
    ensures created == BundleIds(store)[..Uploads(store, failsAt)]
    ensures store.staging == old(store.staging) + UploadSteps(created)
    ensures store.Quiet() ==> store.View() == old(store.View()).(files := WithFiles(old(store.files), created))
  {
    created := BundleIds(store)[..Uploads(store, failsAt)];
    UploadAll(store, created);
  }

  method UploadAll(store: MemoryStore, ids: seq<Id>)
    requires store.Valid()
    modifies store
    ensures store.Valid() && old(store.history) <= store.history
    ensures store.decisions == old(store.decisions)
    ensures store.staging == old(store.staging) + UploadSteps(ids)
    ensures store.Quiet() ==> store.View() == old(store.View()).(files := WithFiles(old(store.files), ids))
  {
    hide MemoryStore.Valid;
    ghost var done: seq<Id> := [];
    for i := 0 to |ids|
      invariant store.Valid() && old(store.history) <= store.history
      invariant store.decisions == old(store.decisions)
      invariant done == ids[..i] && store.staging == old(store.staging) + UploadSteps(done)
      invariant store.Quiet() ==> store.View() == old(store.View()).(files := WithFiles(old(store.files), done))
    {
      store.Interfere();
      store.StageFile(ids[i]);
      OneStepMore(done, ids[i], {});
      WithOneFileMore(old(store.files), done, ids[i]);
      done := done + [ids[i]];
    }
    assert done == ids;
  }

  /** The artifact records once these ids are staged, whatever they were before. */
  function WithPending(artifacts: map<Id, Visibility>, ids: seq<Id>): map<Id, Visibility> {
    if ids == [] then artifacts
    else WithPending(artifacts, ids[..|ids| - 1])[ids[|ids| - 1] := PendingApproval]
  }

  lemma {:induction false} WithPendingAt(artifacts: map<Id, Visibility>, ids: seq<Id>)
    ensures WithPending(artifacts, ids).Keys == artifacts.Keys + AsSet(ids)
    ensures forall a | a in WithPending(artifacts, ids) ::
              WithPending(artifacts, ids)[a] == if a in ids then PendingApproval else artifacts[a]
  {
    if ids != [] {
      WithPendingAt(artifacts, ids[..|ids| - 1]);
      assert forall a :: a in ids <==> a in ids[..|ids| - 1] || a == ids[|ids| - 1];
    }
  }

  /** How many artifact records are written once all files are uploaded. */
  function Stagings(store: MemoryStore, failsAt: nat): nat {
    var n := |BundleIds(store)|;
    if failsAt < n then 0 else if failsAt < 2 * n then failsAt - n else n
  }

  lemma WithOnePendingMore(artifacts: map<Id, Visibility>, ids: seq<Id>, id: Id)
    ensures WithPending(artifacts, ids + [id]) == WithPending(artifacts, ids)[id := PendingApproval]
    ensures AsSet(ids + [id]) == AsSet(ids) + {id}
  {
    assert (ids + [id])[..|ids|] == ids;
  }

  method StageOne(store: MemoryStore, id: Id)
    requires store.Valid()
    modifies store
    ensures store.Valid() && old(store.history) <= store.history
    ensures store.decisions == old(store.decisions)
    ensures store.staging == old(store.staging) + [Op.StageBlob(id)] + [Op.StageArtifact(id)]
    ensures store.Quiet() ==> store.View() == old(store.View()).(
              blobs := old(store.blobs) + {id}, artifacts := old(store.artifacts)[id := PendingApproval])
  {
    hide MemoryStore.Valid, Evolves;
    store.Interfere();
    store.StageBlob(id);
    assert id in store.blobs;
    store.Interfere();
    store.StageArtifact(id);
  }

  method StageArtifacts(store: MemoryStore, failsAt: nat) returns (ok: bool)
    requires store.Valid() && failsAt >= |BundleIds(store)|
    modifies store
    ensures store.Valid() && old(store.history) <= store.history
    ensures store.decisions == old(store.decisions)
    ensures ok <==> failsAt >= 2 * |BundleIds(store)|
    ensures store.staging == old(store.staging) + StageSteps(BundleIds(store)[..Stagings(store, failsAt)])
    ensures store.Quiet() ==> store.View() == old(store.View()).(
              blobs := old(store.blobs) + AsSet(BundleIds(store)[..Stagings(store, failsAt)]),
              artifacts := WithPending(old(store.artifacts), BundleIds(store)[..Stagings(store, failsAt)]))
  {
    StageAll(store, BundleIds(store)[..Stagings(store, failsAt)]);
    ok := failsAt >= 2 * |BundleIds(store)|;
  }

  method StageAll(store: MemoryStore, ids: seq<Id>)
    requires store.Valid()
    modifies store
    ensures store.Valid() && old(store.history) <= store.history
    ensures store.decisions == old(store.decisions)
    ensures store.staging == old(store.staging) + StageSteps(ids)
    ensures store.Quiet() ==> store.View() == old(store.View()).(
              blobs := old(store.blobs) + AsSet(ids), artifacts := WithPending(old(store.artifacts), ids))
  {
    hide MemoryStore.Valid;
    ghost var staged: seq<Id> := [];
    for i := 0 to |ids|
      invariant store.Valid() && old(store.history) <= store.history
      invariant store.decisions == old(store.decisions)
      invariant staged == ids[..i] && store.staging == old(store.staging) + StageSteps(staged)
      invariant store.Quiet() ==> store.View() == old(store.View()).(
                  blobs := old(store.blobs) + AsSet(staged), artifacts := WithPending(old(store.artifacts), staged))
    {
      StageOne(store, ids[i]);
      OneStepMore(staged, ids[i], {});
      WithOnePendingMore(old(store.artifacts), staged, ids[i]);
      staged := staged + [ids[i]];
    }
    assert staged == ids;
  }

  method DropOne(store: MemoryStore, id: Id, stuck: set<Id>)
    requires store.Valid()
    modifies store
    ensures store.Valid() && old(store.history) <= store.history
    ensures store.decisions == old(store.decisions)
    ensures store.staging == old(store.staging) + (if id in stuck then [] else [Op.DropFile(id)])
    ensures store.Quiet() ==> store.View() == old(store.View()).(files := old(store.files) - ({id} - stuck))
  {
    store.Interfere();
    if id !in stuck { store.DropFile(id); }
  }

  lemma DroppedOneMore(files: map<Id, Visibility>, ids: seq<Id>, id: Id, stuck: set<Id>)
    ensures files - (AsSet(ids) - stuck) - ({id} - stuck) == files - (AsSet(ids + [id]) - stuck)
  {
  }

  /** Each created file goes again, but for those the disk refuses to delete; nothing else changes. */
  method DropCreated(store: MemoryStore, created: seq<Id>, stuck: set<Id>)
    requires store.Valid()
    modifies store
    ensures store.Valid() && old(store.history) <= store.history
    ensures store.decisions == old(store.decisions)
    ensures store.staging == old(store.staging) + DropSteps(created, stuck)
    ensures store.Quiet() ==> store.View() == old(store.View()).(files := old(store.files) - (AsSet(created) - stuck))
  {
    hide MemoryStore.Valid;
    ghost var done: seq<Id> := [];
    for i := 0 to |created|
      invariant store.Valid() && old(store.history) <= store.history
      invariant store.decisions == old(store.decisions)
      invariant done == created[..i] && store.staging == old(store.staging) + DropSteps(done, stuck)
      invariant store.Quiet() ==> store.View() == old(store.View()).(files := old(store.files) - (AsSet(done) - stuck))
    {
      DropOne(store, created[i], stuck);
      OneStepMore(done, created[i], stuck);
      DroppedOneMore(old(store.files), done, created[i], stuck);
      done := done + [created[i]];
    }
    assert done == created;
  }

  predicate AllPending(artifacts: map<Id, Visibility>, ids: seq<Id>) {
    forall a | a in ids :: a in artifacts && artifacts[a] == PendingApproval
  }

  /** The files after a bundle that failed: those it uploaded are gone, but for the ones the disk kept. */
  function FilesAfterFailure(files: map<Id, Visibility>, created: seq<Id>, stuck: set<Id>): map<Id, Visibility> {
    WithFiles(files, created) - (AsSet(created) - stuck)
  }

  /** Up to the step that raises. */
  function BundlerSteps(store: MemoryStore, failsAt: nat): seq<Op> {
    UploadSteps(BundleIds(store)[..Uploads(store, failsAt)]) + StageSteps(BundleIds(store)[..Stagings(store, failsAt)])
  }

  method UploadAndStage(store: MemoryStore, failsAt: nat) returns (created: seq<Id>, ok: bool)
    requires store.Valid()
    modifies store
    ensures store.Valid() && old(store.history) <= store.history
    ensures store.decisions == old(store.decisions)
    ensures created == BundleIds(store)[..Uploads(store, failsAt)] && (ok <==> failsAt >= 2 * |BundleIds(store)|)
    ensures store.staging == old(store.staging) + BundlerSteps(store, failsAt)
    ensures store.Quiet() ==>
              && store.now == old(store.now) && store.run == old(store.run) && store.jobs == old(store.jobs)
              && store.files == WithFiles(old(store.files), created)
              && store.artifacts == WithPending(old(store.artifacts), BundleIds(store)[..Stagings(store, failsAt)])
              && store.blobs == old(store.blobs) + AsSet(BundleIds(store)[..Stagings(store, failsAt)])
  {
    hide MemoryStore.Valid, WithFiles, UploadSteps;
    created := UploadBundle(store, failsAt);
    ok := false;
    if failsAt >= |BundleIds(store)| {
      ok := StageArtifacts(store, failsAt);
    }
  }

  /** Uploads the deliverables and registers their artifact records as pending. If any step raises,
      the uploaded files are dropped again; saving the run itself changes nothing, because the store
      keeps a run that already exists. */
  method ExecuteAndBundle(store: MemoryStore, failsAt: nat, shares: bool, stuck: set<Id>) returns (ok: bool)
    requires store.Valid()
    modifies store
    ensures store.Valid() && old(store.history) <= store.history
    ensures store.decisions == old(store.decisions)
    ensures ok <==> failsAt >= 2 * |BundleIds(store)|
    ensures store.staging == old(store.staging) + BundlerSteps(store, failsAt)
                             + (if ok then [] else DropSteps(BundleIds(store)[..Uploads(store, failsAt)], stuck))
    ensures store.Quiet() && ok ==>
              && store.now == old(store.now)
              && store.run == (if shares
                               then old(store.run).(outputs := store.bundle, manifest := Some(store.bundleManifest))
                               else old(store.run))
              && store.artifacts == WithPending(old(store.artifacts), BundleIds(store))
              && store.files == WithFiles(old(store.files), BundleIds(store))
    ensures store.Quiet() && !ok ==>
              && store.run == old(store.run)
              && store.files == FilesAfterFailure(old(store.files), BundleIds(store)[..Uploads(store, failsAt)], stuck)
              && store.artifacts == WithPending(old(store.artifacts), BundleIds(store)[..Stagings(store, failsAt)])
    ensures store.Quiet() ==>
              && store.jobs == old(store.jobs)
              && store.blobs == old(store.blobs) + AsSet(BundleIds(store)[..Stagings(store, failsAt)])
  {
    var created;
    created, ok := UploadAndStage(store, failsAt);
    if !ok {
      DropCreated(store, created, stuck);
    } else {
      assert BundleIds(store)[..|BundleIds(store)|] == BundleIds(store);
      if shares {
        store.Interfere();
        store.ShareOutputs();
      }
    }
  }

  /** The manifest, when it is an artifact in its own right. */
  function ManifestArtifact(run: Run): seq<Id> {
    if run.manifest.Some? && !IsFileId(run.manifest.value) then [run.manifest.value] else []
  }

  // ---------------------------------------------------------------- endpoint

  method Decline(store: MemoryStore) returns (outcome: Outcome)
    requires store.Valid()
    modifies store
    ensures store.Valid() && old(store.history) <= store.history
    ensures store.decisions == old(store.decisions)
    ensures outcome.Rejection? || outcome.AlreadyDecided?
    ensures outcome.Rejection? ==>
              outcome.run == store.run && store.run.status == Failed && outcome.run.gate.status == Rejected
    ensures store.Quiet() && old(store.run).status == AwaitingApproval ==>
              outcome == Rejection(store.run) && store.View() == RejectGate(old(store.View()))
    ensures store.Quiet() && old(store.run).status != AwaitingApproval ==>
              outcome.AlreadyDecided? && store.View() == old(store.View())
  {
    store.Interfere();
    var ok := store.RejectGateAndFailArtifacts();
    outcome := if ok then Rejection(store.run) else AlreadyDecided;
  }

  /** The store refused the commit: the outcome is the authoritative run if someone else completed it,
      otherwise the claim is undone, whoever holds it by now. */
  method AfterConflict(store: MemoryStore) returns (outcome: Outcome)
    requires store.Valid()
    modifies store
    ensures store.Valid() && old(store.history) <= store.history
    ensures store.decisions == old(store.decisions)
    ensures outcome.Approval? || outcome.AlreadyDecided?
    ensures outcome.Approval? ==> outcome.run.status == Completed && outcome.run == store.run
    ensures old(store.run).status == Completed ==> outcome.Approval?
    ensures outcome.AlreadyDecided? ==>
              && store.run.status != Running
              && |store.history| > |old(store.history)| && store.history[|store.history| - 1] == Rollback
    ensures store.Quiet() && old(store.run).status == Running ==>
              store.View() == old(store.View()).(run := old(store.run).(
                status := AwaitingApproval, version := old(store.run).version + 1, gate := Gate(Pending, None, None)))
    ensures store.Quiet() && old(store.run).status != Running ==> store.View() == old(store.View())
  {
    store.Interfere();
    var authoritative := store.run;
    if authoritative.status == Completed { return Approval(authoritative); }
    store.Interfere();
    var _ := store.Rollback();
    outcome := AlreadyDecided;
  }

  method NoteUncertain(store: MemoryStore)
    requires store.Valid()
    modifies store
    ensures store.Valid() && old(store.history) <= store.history
    ensures store.decisions == old(store.decisions)
    ensures store.Quiet() && old(store.run).status == Running ==>
              store.View() == old(store.View()).(run := old(store.run).(
                version := old(store.run).version + 1, commit := Uncertain, uncertainSince := Some(old(store.now))))
    ensures store.Quiet() && old(store.run).status != Running ==> store.View() == old(store.View())
    ensures |store.history| > |old(store.history)| && store.history[|store.history| - 1] == MarkUncertain
    ensures var before := At(store.origin, store.history, |store.history| - 1).run;
            store.run.status == before.status && store.run.gate == before.gate
    ensures old(store.run).status == Completed ==> store.run.status == Completed
  {
    store.Interfere();
    ghost var before := store.history;
    var _ := store.MarkUncertain();
    assert store.history[..|before|] == before;
  }

  /** The answer of the commit was lost. */
  method AfterLostAnswer(store: MemoryStore, reconcileRaises: bool) returns (outcome: Outcome)
    requires store.Valid()
    modifies store
    ensures store.Valid() && old(store.history) <= store.history
    ensures store.decisions == old(store.decisions)
    ensures outcome.Approval? || outcome.CommitUncertain?
    ensures outcome.Approval? ==> outcome.run.status == Completed && outcome.run == store.run
    ensures old(store.run).status == Completed && !reconcileRaises ==> outcome.Approval?
    ensures store.Quiet() && old(store.run).status == Running && LeaseActive(old(store.run), old(store.now), false) ==>
              && outcome.CommitUncertain?
              && store.jobs == old(store.jobs) && store.blobs == old(store.blobs)
              && store.run.status == (if ReconcileIds(old(store.run)) == [] then Failed else Running)
              && (store.run.status == Running ==> store.run.gate == old(store.run).gate)
  {
    hide MemoryStore.Valid, Exec, HitsAsClaimed, Recorded, AbortDue, Settled, Effective;
    NoteUncertain(store);
    var code, result, _ := ReconcileApprovalCommit(store, false);
    outcome := if !reconcileRaises && code in {AlreadyCompleted, CommittedPublished} then Approval(result)
               else CommitUncertain;
  }

  /** Every deliverable the run already names is staged, and the bundle's manifest is a plain file. */
  predicate ReadyToPublish(s: Store) {
    && AllPending(s.artifacts, s.run.outputs + ManifestArtifact(s.run))
    && IsFileId(s.bundleManifest)
  }

  /** The commit reaches the store and its fate can be found out. */
  predicate Answered(env: Environment) { env.answer != LostBeforeCommit && !env.reconcileRaises }

  predicate Smooth(store: MemoryStore, env: Environment) {
    Answered(env) && env.bundleFailsAt >= 2 * |BundleIds(store)|
  }

  /** The bundle is staged, and the commit never reaches the store. */
  predicate LosesCommit(store: MemoryStore, env: Environment) {
    env.bundleFailsAt >= 2 * |BundleIds(store)| && env.answer == LostBeforeCommit
  }

  /** A lost commit leaves the claim to its lease, unless the stored run names nothing: then the run has failed, and
      nothing will ever clean up what was staged. */
  ghost predicate LeftByLostCommit(s: Store, shares: bool, t: Store) {
    && t.jobs == s.jobs && t.blobs == s.blobs + AsSet(s.bundle + [s.bundleManifest])
    && t.run.status == (if !shares && ReconcileIds(s.run) == [] then Failed else Running)
  }

  /** A bundle that fails after so many artifact records fails the run, with jobs for what it named at the claim. */
  ghost predicate LeftByFailedBundle(s: Store, version: nat, staged: nat, t: Store) {
    && staged <= |s.bundle| + 1
    && t.run.status == Failed
    && t.jobs == Enqueue(s.jobs, CleanupsFor(ReconcileIds(s.run), version))
    && t.blobs == s.blobs + AsSet((s.bundle + [s.bundleManifest])[..staged])
  }

  /** The run names the whole bundle and everything it had named. */
  ghost predicate NamesAll(store: MemoryStore, named: seq<Id>)
    reads store
  {
    forall a :: a in store.bundle || a in named ==> a in store.run.outputs
  }

  /** And nothing else. */
  ghost predicate NamesJust(store: MemoryStore, named: seq<Id>)
    reads store
  {
    forall a :: a in store.run.outputs ==> a in store.bundle || a in named
  }

  /** The commit transaction itself. */
  method CommitOnce(store: MemoryStore, token: Token, outputs: seq<Id>) returns (ok: bool)
    requires store.Valid() && (forall x :: x in store.bundle ==> x in outputs)
    modifies store
    ensures store.Valid() && old(store.history) <= store.history
    ensures store.decisions == old(store.decisions)
    ensures ok ==> store.run.status == Completed && store.commits == [token]
    ensures store.Quiet() && CommitAccepted(old(store.View()), token, outputs) ==> ok
    ensures old(store.run).status == Completed ==> store.run.status == Completed
    ensures ok ==> forall a :: a in outputs ==> a in store.run.outputs
    ensures store.Quiet() && ok ==>
              forall a :: a in store.run.outputs ==> a in outputs || a in old(store.run).outputs
    ensures store.Quiet() && !ok ==> store.View() == old(store.View())
  {
    store.Interfere();
    ok := store.ApproveGateAndPublishArtifacts(token, outputs);
    if ok { OwnCommit(store, token); }
  }

  /** Stage 2: `initial` are the outputs the claimed run already named. */
  method PublishBundle(store: MemoryStore, token: Token, initial: seq<Id>, env: Environment)
    returns (outcome: Outcome, own: bool)
    requires store.Valid()
    modifies store
    ensures store.Valid() && old(store.history) <= store.history
    ensures store.decisions == old(store.decisions)
    ensures outcome.Approval? || outcome.AlreadyDecided? || outcome.CommitUncertain?
    ensures outcome.Approval? ==> outcome.run.status == Completed && outcome.run == store.run
    ensures old(store.run).status == Completed && !env.reconcileRaises ==> outcome.Approval?
    ensures own ==> outcome.Approval? && store.commits == [token] && NamesAll(store, initial)
    ensures store.Quiet() && own ==> NamesJust(store, initial + old(store.run).outputs)
    ensures store.Quiet() && Answered(env)
              && CommitAccepted(old(store.View()), token, Dedup(store.bundle + initial)) ==>
              outcome.Approval? && (env.answer == Delivered ==> own)
    ensures store.Quiet() && env.answer == LostBeforeCommit && old(store.run).status == Running
            && LeaseActive(old(store.run), old(store.now), false) ==>
              && outcome.CommitUncertain? && store.jobs == old(store.jobs) && store.blobs == old(store.blobs)
              && store.run.status == (if ReconcileIds(old(store.run)) == [] then Failed else Running)
  {
    var outputs := Dedup(store.bundle + initial);
    own := false;
    if env.answer == LostBeforeCommit {
      outcome := AfterLostAnswer(store, env.reconcileRaises);
      return;
    }
    var ok := CommitOnce(store, token, outputs);
    if env.answer == LostAfterCommit {
      outcome := AfterLostAnswer(store, env.reconcileRaises);
    } else if ok {
      outcome, own := Approval(store.run), true;
    } else {
      outcome := AfterConflict(store);
    }
  }

  /** A completed run has one commit, the one just made. */
  lemma OwnCommit(store: MemoryStore, token: Token)
    requires store.Valid() && store.run.status == Completed
    requires store.commits != [] && store.commits[|store.commits| - 1] == token
    ensures store.commits == [token]
  {
  }

  /** What one request saw and did: the run as read, at step `readAt` of the store's history; the clock that its lease
      was compared with, read at step `clockAt`; and the step of its own claim, if it issued one. */
  datatype Deciding = Deciding(read: Run, readAt: nat, clock: int, clockAt: nat, claimed: Option<nat>)

  /** Paused, or claimed by an approver whose sixty seconds are over. */
  predicate IsOpen(run: Run, now: int) {
    || run.status == AwaitingApproval
    || (run.status == Running && run.gate.leaseUntil.Some? && run.gate.leaseUntil.value <= now)
  }

  /** The readings are of this history, in this order and not before `since`, and a claim is of what was read: of a
      paused run as such, of a running one only if its lease, as read, had run out. */
  ghost predicate ClaimRecorded(s: Store, ops: seq<Op>, since: nat, d: Deciding, token: Token) {
    && since <= d.readAt <= d.clockAt <= |ops|
    && At(s, ops, d.readAt).run == d.read && At(s, ops, d.clockAt).now == d.clock
    && (d.claimed.Some? ==>
          && d.clockAt <= d.claimed.value < |ops|
          && ops[d.claimed.value] == Claim(d.read.status, token) && IsOpen(d.read, d.clock))
  }

  /** Approves or rejects a paused gate. `token` is the decision token drawn for this request. */
  method ApproveRunGate(store: MemoryStore, approved: bool, token: Token, env: Environment)
    returns (outcome: Outcome, own: bool, ghost d: Deciding)
    requires store.Valid()
    modifies store
    ensures store.Valid() && old(store.history) <= store.history
    ensures outcome.Approval? ==> approved && outcome.run.status == Completed && outcome.run == store.run
    ensures outcome.Rejection? ==> !approved && store.run.status == Failed && outcome.run == store.run
    ensures d.claimed.Some? && !Effective(store.origin, store.history, d.claimed.value) ==>
              outcome == AlreadyDecided && |store.history| == d.claimed.value + 1
    ensures own ==>
              && outcome.Approval? && store.commits == [token]
              && d.claimed.Some? && d.claimed.value < |store.history|
              && NamesAll(store, At(store.origin, store.history, d.claimed.value + 1).run.outputs)
    ensures store.Quiet() && own ==> NamesAll(store, old(store.run).outputs) && NamesJust(store, old(store.run).outputs)
    ensures ClaimRecorded(store.origin, store.history, |old(store.history)|, d, token)
    ensures store.decisions == old(store.decisions) + (if d.claimed.Some? then [d.claimed.value] else [])
    ensures d.claimed.Some? <==> approved && IsOpen(d.read, d.clock)
    ensures !IsOpen(d.read, d.clock) ==>
              outcome == if d.read.gate.status == Approved || d.read.gate.status == Rejected
                         then AlreadyDecided else WrongState
    ensures store.Quiet() ==> d.read == old(store.run) && d.clock == old(store.now)
    ensures store.Quiet() && !IsOpen(old(store.run), old(store.now)) ==> store.View() == old(store.View())
    ensures store.Quiet() && !approved && old(store.run).status == AwaitingApproval ==>
              outcome == Rejection(store.run) && store.View() == RejectGate(old(store.View()))
    ensures store.Quiet() && !approved && old(store.run).status == Running ==>
              !outcome.Rejection? && store.View() == old(store.View())
    ensures store.Quiet() && Smooth(store, env) && approved && IsOpen(old(store.run), old(store.now))
            && ReadyToPublish(old(store.View())) ==>
              outcome.Approval? && (env.answer == Delivered ==> own)
    ensures store.Quiet() && approved && IsOpen(old(store.run), old(store.now)) && LosesCommit(store, env) ==>
              outcome.CommitUncertain? && LeftByLostCommit(old(store.View()), env.shares, store.View())
    ensures store.Quiet() && approved && IsOpen(old(store.run), old(store.now))
            && env.bundleFailsAt < 2 * |BundleIds(store)| ==>
              && outcome.GenerationFailed?
              && LeftByFailedBundle(old(store.View()), old(store.run).version + 1, Stagings(store, env.bundleFailsAt),
                                    store.View())
  {
    hide MemoryStore.Valid, LeftByLostCommit, LeftByFailedBundle, Stagings, AllPending;
    hide Exec, IsRun, Recoverable, IsOpen;
    own := false;
    store.Interfere();
    ViewIsAtEnd(store);
    ghost var seen := store.history;
    var run := store.run;
    store.Interfere();
    ViewIsAtEnd(store);
    ghost var clocked := store.history;
    assert clocked[..|seen|] == seen[..|seen|];
    d := Deciding(run, |seen|, store.now, |clocked|, None);
    RecoverableIsOpen(store, |seen|, store.now);
    var recoverable := Recoverable(run, store.now);
    if run.status != AwaitingApproval && !recoverable {
      outcome := if run.gate.status in {Approved, Rejected} then AlreadyDecided else WrongState;
      return;
    }
    if !approved {
      outcome := Decline(store);
      assert store.history[..|seen|] == seen[..|seen|] && store.history[..|clocked|] == clocked[..|clocked|];
      return;
    }
    ghost var w;
    outcome, own, w := ClaimAndPublish(store, if recoverable then Running else AwaitingApproval, token, env);
    d := d.(claimed := Some(w));
    assert store.history[..|seen|] == seen[..|seen|] && store.history[..|clocked|] == clocked[..|clocked|];
  }

  /** A running approval always has a lease, so it is open exactly when that has run out. */
  lemma RecoverableIsOpen(store: MemoryStore, readAt: nat, now: int)
    requires store.Valid() && readAt <= |store.history|
    ensures var run := At(store.origin, store.history, readAt).run;
            && (run.status == AwaitingApproval || Recoverable(run, now) <==> IsOpen(run, now))
            && (Recoverable(run, now) ==> run.status == Running)
  {
    InvAlways(store.origin, store.history, readAt);
  }

  /** What a step did stays so however the history goes on. */
  lemma PrefixSaysTheSame(s: Store, a: seq<Op>, b: seq<Op>, w: nat)
    requires a <= b && w < |a|
    ensures Effective(s, a, w) == Effective(s, b, w) && At(s, a, w + 1) == At(s, b, w + 1) && a[w] == b[w]
  {
    assert a[..w] == b[..w] && a[..w + 1] == b[..w + 1];
  }

  /** The step `w` is the one claim that this handle issued since. */
  twostate predicate ClaimedAt(store: MemoryStore, w: nat, expected: RunStatus, token: Token)
    reads store
  {
    && |old(store.history)| <= w < |store.history|
    && store.history[w] == Claim(expected, token)
    && store.decisions == old(store.decisions) + [w]
  }

  /** The claim: on the paused status, or on the RUNNING one of a claim whose lease ran out. */
  method TakeDecision(store: MemoryStore, expected: RunStatus, token: Token)
    returns (claimed: bool, ghost w: nat)
    requires store.Valid() && expected in {AwaitingApproval, Running}
    modifies store
    ensures store.Valid() && old(store.history) <= store.history
    ensures ClaimedAt(store, w, expected, token)
    ensures claimed == Effective(store.origin, store.history, w) && |store.history| == w + 1
    ensures store.Quiet() ==> claimed == (old(store.run).status == expected)
    ensures store.Quiet() && claimed ==> store.View() == Claimed(old(store.View()), token)
  {
    store.Interfere();
    ghost var before := store.history;
    w := |before|;
    claimed := store.Claim(expected, token);
    assert store.history[..w] == before;
  }

  /** What the claim found ready and the bundler staged, a commit by the claimant publishes. */
  lemma BundledCommits(run: Run, artifacts: map<Id, Visibility>, t: Store, token: Token)
    requires AllPending(artifacts, run.outputs + ManifestArtifact(run)) && IsFileId(t.bundleManifest)
    requires t.artifacts == WithPending(artifacts, t.bundle + [t.bundleManifest])
    requires t.run.status == Running && t.run.gate.status == Approving && t.run.gate.token == Some(token)
    requires (t.run.outputs == run.outputs && t.run.manifest == run.manifest)
             || (t.run.outputs == t.bundle && t.run.manifest == Some(t.bundleManifest))
    ensures CommitAccepted(t, token, Dedup(t.bundle + run.outputs))
  {
    WithPendingAt(artifacts, t.bundle + [t.bundleManifest]);
    forall a | a in CommitTargets(t.run, Dedup(t.bundle + run.outputs))
      ensures a in t.artifacts && t.artifacts[a] == PendingApproval
    {
      assert a in t.bundle + [t.bundleManifest] || a in run.outputs + ManifestArtifact(run);
    }
  }

  /** After a bundle that failed: the run is aborted whatever its lease. */
  method AbandonBundle(store: MemoryStore)
    requires store.Valid()
    modifies store
    ensures store.Valid() && old(store.history) <= store.history
    ensures store.decisions == old(store.decisions)
    ensures store.Quiet() && old(store.run).status == Running ==>
              store.View() == old(store.View()).(
                run := AbandonedRun(old(store.run)),
                jobs := Enqueue(old(store.jobs), CleanupsFor(ReconcileIds(old(store.run)), old(store.run).version)))
  {
    var _, _, _ := ReconcileApprovalCommit(store, true);
    assert Enqueue(old(store.jobs), []) == old(store.jobs);
  }

  /** The claimed run reaches the commit with every target staged. */
  predicate ReadyToBundle(s: Store, token: Token) {
    && s.run.status == Running && s.run.gate.status == Approving && s.run.gate.token == Some(token)
    && AllPending(s.artifacts, s.run.outputs + ManifestArtifact(s.run))
    && IsFileId(s.bundleManifest)
  }

  /** Stages 1 and 2 of the claimant. */
  method BundleAndPublish(store: MemoryStore, token: Token, env: Environment) returns (outcome: Outcome, own: bool)
    requires store.Valid()
    modifies store
    ensures store.Valid() && old(store.history) <= store.history
    ensures store.decisions == old(store.decisions)
    ensures outcome.Approval? || outcome.AlreadyDecided? || outcome.CommitUncertain? || outcome.GenerationFailed?
    ensures outcome.Approval? ==> outcome.run.status == Completed && outcome.run == store.run
    ensures own ==> outcome.Approval? && store.commits == [token] && NamesAll(store, old(store.run).outputs)
    ensures store.Quiet() && own ==> NamesJust(store, old(store.run).outputs)
    ensures store.Quiet() && Smooth(store, env) && ReadyToBundle(old(store.View()), token) ==>
              outcome.Approval? && (env.answer == Delivered ==> own)
    ensures store.Quiet() && old(store.run).status == Running && LeaseActive(old(store.run), old(store.now), false)
            && LosesCommit(store, env) ==>
              outcome.CommitUncertain? && LeftByLostCommit(old(store.View()), env.shares, store.View())
    ensures store.Quiet() && old(store.run).status == Running && env.bundleFailsAt < 2 * |BundleIds(store)| ==>
              && outcome.GenerationFailed?
              && LeftByFailedBundle(old(store.View()), old(store.run).version, Stagings(store, env.bundleFailsAt),
                                    store.View())
  {
    hide MemoryStore.Valid, WithPending, WithFiles, Dedup, CommitAccepted, AllPending, FilesAfterFailure;
    own := false;
    var initial := store.run.outputs;
    var bundled := ExecuteAndBundle(store, env.bundleFailsAt, env.shares, env.stuck);
    if !bundled {
      AbandonBundle(store);
      return GenerationFailed, false;
    }
    assert BundleIds(store)[..|BundleIds(store)|] == BundleIds(store);
    if store.Quiet() && ReadyToBundle(old(store.View()), token) {
      BundledCommits(old(store.run), old(store.artifacts), store.View(), token);
    }
    outcome, own := PublishBundle(store, token, initial, env);
  }

  /** A claim gives the run a live lease, and leaves what it names as it is. */
  lemma ClaimChangesNoName(s: Store, token: Token)
    ensures var c := Claimed(s, token);
      && LeaseActive(c.run, c.now, false)
      && (ReadyToPublish(s) ==> ReadyToBundle(c, token))
      && (forall shares, t :: LeftByLostCommit(c, shares, t) <==> LeftByLostCommit(s, shares, t))
      && (forall v, n, t :: LeftByFailedBundle(c, v, n, t) <==> LeftByFailedBundle(s, v, n, t))
  {
  }

  method ClaimAndPublish(store: MemoryStore, expected: RunStatus, token: Token, env: Environment)
    returns (outcome: Outcome, own: bool, ghost w: nat)
    requires store.Valid() && expected in {AwaitingApproval, Running}
    modifies store
    ensures store.Valid() && old(store.history) <= store.history
    ensures outcome.Approval? || outcome.AlreadyDecided? || outcome.CommitUncertain? || outcome.GenerationFailed?
    ensures outcome.Approval? ==> outcome.run.status == Completed && outcome.run == store.run
    ensures ClaimedAt(store, w, expected, token)
    ensures !Effective(store.origin, store.history, w) ==> outcome == AlreadyDecided && |store.history| == w + 1
    ensures own ==>
              && outcome.Approval? && store.commits == [token]
              && w < |store.history| && NamesAll(store, At(store.origin, store.history, w + 1).run.outputs)
    ensures store.Quiet() && own ==> NamesAll(store, old(store.run).outputs) && NamesJust(store, old(store.run).outputs)
    ensures store.Quiet() && Smooth(store, env) && expected == old(store.run).status
            && ReadyToPublish(old(store.View())) ==>
              outcome.Approval? && (env.answer == Delivered ==> own)
    ensures store.Quiet() && expected == old(store.run).status && LosesCommit(store, env) ==>
              outcome.CommitUncertain? && LeftByLostCommit(old(store.View()), env.shares, store.View())
    ensures store.Quiet() && expected == old(store.run).status
            && env.bundleFailsAt < 2 * |BundleIds(store)| ==>
              && outcome.GenerationFailed?
              && LeftByFailedBundle(old(store.View()), old(store.run).version + 1, Stagings(store, env.bundleFailsAt),
                                    store.View())
  {
    hide MemoryStore.Valid, LeftByLostCommit, LeftByFailedBundle, Stagings, ReadyToBundle, LeaseActive, AllPending;
    hide Effective, Exec, NamesJust;
    own := false;
    var claimed;
    claimed, w := TakeDecision(store, expected, token);
    ghost var taken := store.history;
    ViewIsAtEnd(store);
    if !claimed { return AlreadyDecided, false, w; }
    if store.Quiet() { ClaimChangesNoName(old(store.View()), token); }
    outcome, own := BundleAndPublish(store, token, env);
    PrefixSaysTheSame(store.origin, taken, store.history, w);
  }

  // ---------------------------------------------------------------- scanner

  /** A running approval whose lease ran out, or whose lost commit is thirty seconds old. */
  predicate IsStuck(run: Run, now: int) {
    && run.status == Running
    && (|| (run.gate.leaseUntil.Some? && run.gate.leaseUntil.value <= now)
        || (if run.uncertainSince.Some? then run.uncertainSince.value + 30 <= now else run.commit == Uncertain))
  }

  lemma StalledIsStuck(store: MemoryStore)
    requires store.Valid()
    ensures Stalled(store.run, store.now) <==> IsStuck(store.run, store.now)
  {
  }

  lemma NeverConfirmed(s: Store, force: bool)
    ensures UndisturbedCode(s, force) != CommittedPublished
  {
  }

  lemma RecoverableIsReconciled(store: MemoryStore)
    requires store.Valid() && Recoverable(store.run, store.now) && ReconcileIds(store.run) != []
    ensures IsStuck(store.run, store.now) && UndisturbedCode(store.View(), false) == AbortedCleanupEnqueued
    ensures UndisturbedStore(store.View(), false).run.status == Failed
  {
  }

  lemma NothingRecorded(store: MemoryStore, since: nat, r: Reconciling)
    requires store.Valid() && since <= |store.history|
    requires r == Reconciling(store.run, |store.history|, store.now, |store.history|, None)
    ensures Recorded(store.origin, store.history, since, r)
  {
    ViewIsAtEnd(store);
  }

  /** One run of the scanner's list: counted when it was settled. */
  method ScanAndReconcile(store: MemoryStore) returns (reconciled: nat, ghost r: Reconciling)
    requires store.Valid()
    modifies store
    ensures store.Valid() && old(store.history) <= store.history
    ensures reconciled <= 1
    ensures reconciled == 1 ==> store.run.status in {Completed, Failed}
    ensures store.Quiet() && Recoverable(old(store.run), old(store.now)) && ReconcileIds(old(store.run)) != [] ==>
              reconciled == 1 && store.run.status == Failed
    ensures store.Quiet() && !IsStuck(old(store.run), old(store.now)) ==>
              reconciled == 0 && store.View() == old(store.View())
    ensures store.Quiet() && IsStuck(old(store.run), old(store.now)) ==>
              && store.View() == UndisturbedStore(old(store.View()), false)
              && (reconciled == 1 <==> UndisturbedCode(old(store.View()), false) == AbortedCleanupEnqueued)
    ensures r.wrote.Some? ==> AbortDue(r.read, r.clock, false)
    ensures Recorded(store.origin, store.history, |old(store.history)|, r)
    ensures store.aborts == old(store.aborts) + (if r.wrote.Some? then [r.wrote.value] else [])
  {
    hide MemoryStore.Valid, Exec, UndisturbedStore, UndisturbedCode, AbortDue, Stalled, IsStuck;
    store.Interfere();
    ViewIsAtEnd(store);
    StalledIsStuck(store);
    if store.Quiet() && Recoverable(store.run, store.now) && ReconcileIds(store.run) != [] {
      RecoverableIsReconciled(store);
    }
    reconciled, r := 0, Reconciling(store.run, |store.history|, store.now, |store.history|, None);
    NothingRecorded(store, |old(store.history)|, r);
    assert UndisturbedCode(store.View(), false) != CommittedPublished by { NeverConfirmed(store.View(), false); }
    if Stalled(store.run, store.now) {
      var code, _, seen := ReconcileApprovalCommit(store, false);
      r := seen;
      if code in {AbortedCleanupEnqueued, CommittedPublished} { reconciled := 1; }
    }
  }

  // ---------------------------------------------------------------- sweeper

  /** How the disk answers a deletion. */
  datatype Disk = Removes | Refuses

  /** Waiting, and its time has come. */
  predicate IsDue(j: Job, now: int, worker: Token) {
    && j.status == Waiting
    && (j.nextRetryAt.None? || j.nextRetryAt.value <= now)
    && (j.leaseUntil.None? || j.leaseUntil.value <= now || j.owner == Some(worker))
  }

  /** A job after a sweep that nobody disturbed: done, or put off by two, four, eight and sixteen seconds, and given up
      after the fifth refusal. */
  function Swept(j: Job, now: int, worker: Token, disk: Disk): Job {
    if !IsDue(j, now, worker) then j
    else
      var released := j.(owner := None, lease := None, leaseUntil := None, version := j.version + 2);
      if disk == Removes then released.(status := Done)
      else if j.retries >= 4 then released.(status := GivenUp, retries := j.retries + 1)
      else released.(retries := j.retries + 1, nextRetryAt := Some(now + Numerals.PowerOfTwo(j.retries + 1)))
  }

  /** The blobs without those that a sweep of these jobs, in this order, removes. */
  function BlobsSwept(s: Store, listed: seq<JobId>, worker: Token, disk: nat -> Disk): set<Id> {
    if listed == [] then s.blobs
    else
      var n := |listed| - 1;
      var before := BlobsSwept(s, listed[..n], worker, disk);
      if listed[n] in s.jobs && IsDue(s.jobs[listed[n]], s.now, worker) && disk(n) == Removes
      then before - {listed[n].artifact} else before
  }

  function CountSwept(s: Store, listed: seq<JobId>, worker: Token, disk: nat -> Disk): nat {
    if listed == [] then 0
    else
      var n := |listed| - 1;
      CountSwept(s, listed[..n], worker, disk)
      + if listed[n] in s.jobs && IsDue(s.jobs[listed[n]], s.now, worker) && disk(n) == Removes then 1 else 0
  }

  function WaitingJobs(s: Store): set<JobId> { set j | j in s.jobs && s.jobs[j].status == Waiting }

  /** As many waiting jobs as the batch holds, each once. */
  ghost predicate Lists(s: Store, listed: seq<JobId>, batch: nat) {
    && (forall i, j :: 0 <= i < j < |listed| ==> listed[i] != listed[j])
    && (forall i :: 0 <= i < |listed| ==> listed[i] in s.jobs && s.jobs[listed[i]].status == Waiting)
    && |listed| == if |WaitingJobs(s)| < batch then |WaitingJobs(s)| else batch
  }

  /** The listed jobs swept in order, and no other touched. */
  ghost predicate JobsSwept(s: Store, listed: seq<JobId>, worker: Token, disk: nat -> Disk, jobs: map<JobId, Job>) {
    && jobs.Keys == s.jobs.Keys
    && (forall i :: 0 <= i < |listed| && listed[i] in s.jobs ==>
          jobs[listed[i]] == Swept(s.jobs[listed[i]], s.now, worker, disk(i)))
    && (forall j :: j in s.jobs && j !in listed ==> jobs[j] == s.jobs[j])
  }

  /** Of jobs that are all due each counts under a disk that removes, and none under one that refuses. */
  lemma {:induction false} SweepOfDueJobs(s: Store, listed: seq<JobId>, worker: Token, disk: nat -> Disk)
    requires forall j :: j in listed ==> j in s.jobs && IsDue(s.jobs[j], s.now, worker)
    ensures (forall i :: disk(i) == Removes) ==> CountSwept(s, listed, worker, disk) == |listed|
    ensures (forall i :: disk(i) == Removes) ==>
              forall b :: b in BlobsSwept(s, listed, worker, disk)
                          <==> b in s.blobs && forall j :: j in listed ==> j.artifact != b
    ensures (forall i :: disk(i) == Refuses) ==>
              CountSwept(s, listed, worker, disk) == 0 && BlobsSwept(s, listed, worker, disk) == s.blobs
  {
    if listed != [] {
      var n := |listed| - 1;
      SweepOfDueJobs(s, listed[..n], worker, disk);
      assert listed[n] in listed && forall j :: j in listed <==> j in listed[..n] || j == listed[n];
    }
  }

  /** `listed` are the jobs of the batch in the order in which they are swept. */
  method SweepArtifactCleanups(store: MemoryStore, worker: Token, leases: nat -> Token, disk: nat -> Disk, batch: nat)
    returns (swept: nat, ghost listed: seq<JobId>)
    requires store.Valid()
    modifies store
    ensures store.Valid() && old(store.history) <= store.history
    ensures swept <= |listed| <= batch
    ensures swept > 0 ==> store.run.status == Failed
    ensures store.run.status != Failed ==> old(store.blobs) <= store.blobs
    ensures store.Quiet() ==>
              && Lists(old(store.View()), listed, batch)
              && JobsSwept(old(store.View()), listed, worker, disk, store.jobs)
              && store.blobs == BlobsSwept(old(store.View()), listed, worker, disk)
              && swept == CountSwept(old(store.View()), listed, worker, disk)
              && store.run == old(store.run)
  {
    hide MemoryStore.Valid, SweptSoFar, Evolves, OnceEach, Lists, JobsSwept;
    ghost var start := store.View();
    ViewIsExec(store);
    NothingSweptYet(start, worker, disk);
    store.Interfere();
    var pending := set j | j in store.jobs && store.jobs[j].status == Waiting;
    swept, listed := 0, [];
    var round := 0;
    while pending != {} && round < batch
      invariant store.Valid() && old(store.history) <= store.history
      invariant swept <= round == |listed| <= batch
      invariant swept > 0 ==> store.run.status == Failed
      invariant store.Quiet() ==> |pending| + round == |WaitingJobs(start)|
      invariant store.Quiet() ==> forall j :: j in pending ==> j in WaitingJobs(start) && j !in listed
      invariant store.Quiet() ==> SweptSoFar(start, listed, worker, disk, store.View(), swept)
      decreases batch - round
    {
      var job :| job in pending;
      pending := pending - {job};
      ghost var before := store.View();
      var done := SweepJob(store, job, worker, leases(round), disk(round));
      if store.Quiet() { SweptNext(start, listed, job, worker, disk, before, swept, store.View(), done); }
      if done { swept := swept + 1; }
      listed := listed + [job];
      round := round + 1;
    }
    if store.Quiet() { SweptInTheEnd(start, listed, worker, disk, store.View(), swept, batch); }
    EvolvedSince(store, old(store.history));
    EvolvesMeansBlobs(start, store.View());
  }

  lemma EvolvesMeansBlobs(s: Store, t: Store)
    requires Evolves(s, t)
    ensures t.run.status != Failed ==> s.blobs <= t.blobs
  {
  }

  /** A batch that is large enough lists every waiting job. */
  lemma LargeBatchListsAll(s: Store, listed: seq<JobId>, batch: nat)
    requires Lists(s, listed, batch) && |WaitingJobs(s)| <= batch
    ensures forall j :: j in listed <==> j in WaitingJobs(s)
  {
    var all := set j | j in listed;
    DistinctJobs(listed);
    SubsetOfSize(all, WaitingJobs(s));
  }

  lemma {:induction false} DistinctJobs(listed: seq<JobId>)
    requires forall i, j :: 0 <= i < j < |listed| ==> listed[i] != listed[j]
    ensures |set j | j in listed| == |listed|
  {
    if listed != [] {
      var n := |listed| - 1;
      DistinctJobs(listed[..n]);
      assert listed[n] !in listed[..n];
      assert (set j | j in listed) == (set j | j in listed[..n]) + {listed[n]};
    }
  }

  lemma {:induction false} SubsetOfSize(a: set<JobId>, b: set<JobId>)
    requires a <= b && |a| == |b|
    ensures a == b
  {
    assert |b - a| == |b| - |a| by { assert b == (b - a) + a; }
  }

  /** The loop's state after some jobs of an undisturbed sweep. */
  ghost predicate SweptSoFar(s: Store, listed: seq<JobId>, worker: Token, disk: nat -> Disk, t: Store, swept: nat) {
    && OnceEach(s, listed)
    && JobsSwept(s, listed, worker, disk, t.jobs)
    && t.blobs == BlobsSwept(s, listed, worker, disk)
    && swept == CountSwept(s, listed, worker, disk)
    && t.run == s.run && t.now == s.now
  }

  lemma SweptNext(s: Store, listed: seq<JobId>, job: JobId, worker: Token, disk: nat -> Disk, t: Store, swept: nat,
                  u: Store, done: bool)
    requires SweptSoFar(s, listed, worker, disk, t, swept) && job in WaitingJobs(s) && job !in listed
    requires job in t.jobs && IsDue(t.jobs[job], t.now, worker) ==>
               done == (disk(|listed|) == Removes) && u == SweptStore(t, job, worker, disk(|listed|))
    requires !(job in t.jobs && IsDue(t.jobs[job], t.now, worker)) ==> !done && u == t
    ensures SweptSoFar(s, listed + [job], worker, disk, u, if done then swept + 1 else swept)
  {
    hide Swept, IsDue, JobsSwept, BlobsSwept, CountSwept, OnceEach;
    ListedOneMore(s, listed, job, worker, disk, t.jobs);
    CountedOneMore(s, listed, job, worker, disk);
    JobsAreThere(s, listed, worker, disk, t.jobs);
    SweptByItself(s, t, job, worker, disk(|listed|));
  }

  lemma SweptInTheEnd(s: Store, listed: seq<JobId>, worker: Token, disk: nat -> Disk, t: Store, swept: nat, batch: nat)
    requires SweptSoFar(s, listed, worker, disk, t, swept)
    requires |listed| == if |WaitingJobs(s)| < batch then |WaitingJobs(s)| else batch
    ensures Lists(s, listed, batch) && JobsSwept(s, listed, worker, disk, t.jobs) && t.run == s.run
    ensures t.blobs == BlobsSwept(s, listed, worker, disk) && swept == CountSwept(s, listed, worker, disk)
  {
  }

  ghost predicate OnceEach(s: Store, listed: seq<JobId>) {
    && (forall i, j :: 0 <= i < j < |listed| ==> listed[i] != listed[j])
    && (forall i :: 0 <= i < |listed| ==> listed[i] in s.jobs && s.jobs[listed[i]].status == Waiting)
  }

  lemma ListedOneMore(s: Store, listed: seq<JobId>, job: JobId, worker: Token, disk: nat -> Disk, jobs: map<JobId, Job>)
    requires OnceEach(s, listed) && job in s.jobs && s.jobs[job].status == Waiting && job !in listed
    requires JobsSwept(s, listed, worker, disk, jobs)
    ensures jobs[job] == s.jobs[job] && OnceEach(s, listed + [job])
    ensures JobsSwept(s, listed + [job], worker, disk,
                      jobs[job := Swept(s.jobs[job], s.now, worker, disk(|listed|))])
  {
    hide Swept, IsDue;
    forall i | 0 <= i < |listed| ensures listed[i] != job { assert listed[i] in listed; }
  }

  lemma CountedOneMore(s: Store, listed: seq<JobId>, job: JobId, worker: Token, disk: nat -> Disk)
    requires job in s.jobs
    ensures BlobsSwept(s, listed + [job], worker, disk)
         == BlobsSwept(s, listed, worker, disk)
            - (if IsDue(s.jobs[job], s.now, worker) && disk(|listed|) == Removes then {job.artifact} else {})
    ensures CountSwept(s, listed + [job], worker, disk)
         == CountSwept(s, listed, worker, disk)
            + (if IsDue(s.jobs[job], s.now, worker) && disk(|listed|) == Removes then 1 else 0)
  {
    hide IsDue;
    assert (listed + [job])[..|listed|] == listed;
  }

  /** A job that is not due, or swept at the state of the others so far, is as it would be by itself. */
  lemma SweptByItself(s: Store, t: Store, job: JobId, worker: Token, disk: Disk)
    requires job in s.jobs && job in t.jobs && t.jobs[job] == s.jobs[job] && t.now == s.now
    ensures if IsDue(t.jobs[job], t.now, worker)
            then SweptStore(t, job, worker, disk).jobs == t.jobs[job := Swept(s.jobs[job], s.now, worker, disk)]
            else t.jobs == t.jobs[job := Swept(s.jobs[job], s.now, worker, disk)]
  {
  }

  lemma NothingSweptYet(s: Store, worker: Token, disk: nat -> Disk)
    ensures SweptSoFar(s, [], worker, disk, s, 0)
  {
  }

  lemma JobsAreThere(s: Store, listed: seq<JobId>, worker: Token, disk: nat -> Disk, jobs: map<JobId, Job>)
    requires JobsSwept(s, listed, worker, disk, jobs)
    ensures jobs.Keys == s.jobs.Keys
  {
  }

  lemma ViewIsExec(store: MemoryStore)
    requires store.Valid()
    ensures store.View() == Exec(store.origin, store.history)
  {
  }

  lemma EvolvedSince(store: MemoryStore, before: seq<Op>)
    requires store.Valid() && before <= store.history
    ensures Evolves(Exec(store.origin, before), store.View())
  {
    HistoryEvolves(store.origin, before, store.history);
  }

  /** A record of that id, if there is one, with another visibility. */
  function Restamped(m: map<Id, Visibility>, id: Id, v: Visibility): map<Id, Visibility> {
    if id in m then m[id := v] else m
  }

  /** The store after the sweep of a due job. */
  function SweptStore(s: Store, job: JobId, worker: Token, disk: Disk): Store
    requires job in s.jobs
  {
    var v := if disk == Removes then Retired else PendingApproval;
    s.(jobs := s.jobs[job := Swept(s.jobs[job], s.now, worker, disk)],
       blobs := s.blobs - (if disk == Removes then {job.artifact} else {}),
       artifacts := Restamped(s.artifacts, job.artifact, v),
       files := Restamped(s.files, job.artifact, v))
  }

  lemma TakenIsHeld(s: Store, job: JobId, worker: Token, lease: Token, t: Store, disk: Disk)
    requires TakenFrom(s, job, worker, lease, t) && IsDue(s.jobs[job], s.now, worker)
    ensures JobHeld(t, job, worker, lease, t.jobs[job].version)
    ensures ReportedJob(t, job, disk) == SweptStore(s, job, worker, disk)
  {
    BackoffIsPower(s.jobs[job].retries);
    assert t.jobs[job := ReportedJob(t, job, disk).jobs[job]] == s.jobs[job := ReportedJob(t, job, disk).jobs[job]];
  }

  /** The delays there are: two, four, eight and sixteen seconds. */
  lemma BackoffIsPower(retries: nat)
    ensures retries < 4 ==> Backoff(retries + 1) == Numerals.PowerOfTwo(retries + 1)
  {
    assert Numerals.PowerOfTwo(1) == 2 && Numerals.PowerOfTwo(2) == 4;
    assert Numerals.PowerOfTwo(3) == 8 && Numerals.PowerOfTwo(4) == 16;
  }

  /** Claim, re-check, delete, report: separate accesses, with no lock held across them. */
  method SweepJob(store: MemoryStore, job: JobId, worker: Token, lease: Token, disk: Disk) returns (done: bool)
    requires store.Valid()
    modifies store
    ensures store.Valid() && old(store.history) <= store.history
    ensures old(store.run).status == Failed ==> store.run.status == Failed
    ensures done ==> store.run.status == Failed && job in store.jobs && store.jobs[job].status == Done
    ensures store.Quiet() && !(job in old(store.jobs) && IsDue(old(store.jobs)[job], old(store.now), worker)) ==>
              !done && store.View() == old(store.View())
    ensures store.Quiet() && job in old(store.jobs) && IsDue(old(store.jobs)[job], old(store.now), worker) ==>
              done == (disk == Removes) && store.View() == SweptStore(old(store.View()), job, worker, disk)
  {
    hide MemoryStore.Valid, SweptStore, TakenFrom, ReportedJob, IsDue;
    ghost var start := store.View();
    done := false;
    var claimed := TakeJob(store, job, worker, lease);
    if claimed.None? { return; }
    var published := CheckPublished(store, job.artifact);
    if published {
      store.Interfere();
      var _ := store.CancelArtifactCleanupJob(job);
      return;
    }
    ghost var taken := store.View();
    if store.Quiet() { TakenIsHeld(start, job, worker, lease, taken, disk); }
    done := DeleteAndReport(store, job, worker, lease, claimed.value.version, disk);
  }

  /** A job in the hands of a sweeper, its records blocked. */
  ghost predicate TakenFrom(s: Store, job: JobId, worker: Token, lease: Token, t: Store) {
    && job in s.jobs
    && t == s.(jobs := s.jobs[job := s.jobs[job].(status := Held, owner := Some(worker), lease := Some(lease),
                                                  leaseUntil := Some(s.now + 60), version := s.jobs[job].version + 1)],
               artifacts := Restamped(s.artifacts, job.artifact, Cleaning),
               files := Restamped(s.files, job.artifact, Cleaning))
  }

  /** Whether a claim goes through on a failed run, and what it does. */
  lemma ClaimOfDueJob(s: Store, job: JobId, worker: Token, lease: Token)
    requires Inv(s)
    ensures Accepted(s, ClaimJob(job, worker, lease)) <==> job in s.jobs && IsDue(s.jobs[job], s.now, worker)
    ensures if Accepted(s, ClaimJob(job, worker, lease))
            then TakenFrom(s, job, worker, lease, Apply(s, ClaimJob(job, worker, lease)))
            else Apply(s, ClaimJob(job, worker, lease)) == s
  {
    if job in s.jobs { assert NothingPublished(s); }
  }

  method TakeJob(store: MemoryStore, job: JobId, worker: Token, lease: Token) returns (claimed: Option<Job>)
    requires store.Valid()
    modifies store
    ensures store.Valid() && old(store.history) <= store.history
    ensures old(store.run).status == Failed ==> store.run.status == Failed
    ensures claimed.Some? ==> job in store.jobs && store.run.status == Failed
    ensures store.Quiet() ==>
              (claimed.Some? <==> job in old(store.jobs) && IsDue(old(store.jobs)[job], old(store.now), worker))
    ensures store.Quiet() && claimed.None? ==> store.View() == old(store.View())
    ensures store.Quiet() && claimed.Some? ==>
              TakenFrom(old(store.View()), job, worker, lease, store.View()) && claimed.value == store.jobs[job]
  {
    store.Interfere();
    ClaimOfDueJob(store.View(), job, worker, lease);
    claimed := store.ClaimArtifactCleanupJob(job, worker, lease);
  }

  method CheckPublished(store: MemoryStore, id: Id) returns (published: bool)
    requires store.Valid()
    modifies store
    ensures store.Valid() && old(store.history) <= store.history
    ensures old(store.run).status == Failed ==> store.run.status == Failed
    ensures old(store.jobs).Keys <= store.jobs.Keys
    ensures store.Quiet() ==> store.View() == old(store.View())
    ensures store.Quiet() && store.run.status == Failed ==> !published
  {
    store.Interfere();
    var artifactPublished := IsPublished(store.artifacts, id);
    store.Interfere();
    var filePublished := IsPublished(store.files, id);
    published := artifactPublished || filePublished;
  }

  method DeleteBlobOf(store: MemoryStore, job: JobId, disk: Disk)
    requires store.Valid() && job in store.jobs && store.run.status == Failed
    modifies store
    ensures store.Valid() && old(store.history) <= store.history
    ensures job in store.jobs && store.run.status == Failed
    ensures store.Quiet() ==>
              store.View() == old(store.View()).(
                blobs := old(store.blobs) - (if disk == Removes then {job.artifact} else {}))
  {
    store.Interfere();
    store.DeleteArtifactBlob(job, disk == Removes);
  }

  method DeleteAndReport(store: MemoryStore, job: JobId, worker: Token, lease: Token, version: nat, disk: Disk)
    returns (done: bool)
    requires store.Valid() && job in store.jobs && store.run.status == Failed
    modifies store
    ensures store.Valid() && old(store.history) <= store.history
    ensures store.run.status == Failed
    ensures done ==> job in store.jobs && store.jobs[job].status == Done
    ensures store.Quiet() && JobHeld(old(store.View()), job, worker, lease, version) ==>
              && done == (disk == Removes)
              && store.View() == ReportedJob(old(store.View()), job, disk)
  {
    hide MemoryStore.Valid;
    done := false;
    DeleteBlobOf(store, job, disk);
    store.Interfere();
    if disk == Removes {
      done := store.CompleteArtifactCleanup(job, worker, lease, version);
    } else {
      var _ := store.RecordCleanupFailure(job, worker, lease, version);
    }
  }

  /** After the blob is gone, or the disk refused. */
  function ReportedJob(s: Store, job: JobId, disk: Disk): Store
    requires job in s.jobs
  {
    if disk == Removes then
      Retire(s.(blobs := s.blobs - {job.artifact}), job.artifact).(
        jobs := s.jobs[job := ReleasedJob(s.jobs[job], Done)])
    else Restore(s, job.artifact).(jobs := s.jobs[job := FailedJob(s, s.jobs[job])])
  }
}
