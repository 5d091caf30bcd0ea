/** Where the approval code falls short of what one might expect of it: concrete runs, and the
    statements that say how far the shortfall goes. */
module ApprovalWitnesses {
  import opened Options
  import opened ApprovalProtocol
  import opened ApprovalRuns
  import opened ApprovalClaims
  import opened ApprovalCleanups
  import opened ApprovalEndpoint
  import opened ApprovalHandlers
  import opened ApprovalStore
  import opened ApprovalSweepers

  const ART: Id := "file_r1_schedule"
  const MAN: Id := "file_r1_manifest"

  /** A paused run whose bundle is the one artifact `ART` and its manifest. */
  function Paused(): Store {
    Store(Run(AwaitingApproval, Gate(Pending, None, None), Unknown, None, [], None, 1),
          [ART], MAN, map[], map[], {}, map[], 0, [], [])
  }

  /** `Paused` after two claims a minute apart. */
  function Reclaimed(): Store {
    Paused().(run := Run(Running, Gate(Approving, Some(1), Some(120)), Unknown, None, [], None, 3),
              now := 60, claims := [0, 1])
  }

  /** `Reclaimed` with the bundle staged and named by the run. */
  function Staged(): Store {
    Reclaimed().(run := Reclaimed().run.(outputs := [ART], manifest := Some(MAN)),
                 artifacts := map[ART := PendingApproval, MAN := PendingApproval],
                 files := map[ART := PendingApproval, MAN := PendingApproval],
                 blobs := {ART, MAN})
  }

  lemma Extend(s: Store, ops: seq<Op>, op: Op, t: Store)
    requires IsRun(s, ops) && Exec(s, ops) == t && Enabled(t, op)
    ensures IsRun(s, ops + [op]) && Exec(s, ops + [op]) == Apply(t, op)
  {
    IsRunExtends(s, ops, op);
  }

  lemma IdsDiffer()
    ensures ART != MAN && IsFileId(ART) && IsFileId(MAN)
  {
    assert ART[8] != MAN[8];
  }

  lemma ReclaimedIsReached() returns (ops: seq<Op>)
    ensures Init(Paused()) && IsRun(Paused(), ops) && Exec(Paused(), ops) == Reclaimed()
    ensures ops == [Claim(AwaitingApproval, 0), Elapse(60), Claim(Running, 1)]
  {
    var s0 := Paused();
    var s1 := Apply(s0, Claim(AwaitingApproval, 0));
    Extend(s0, [], Claim(AwaitingApproval, 0), s0);
    var o1 := [] + [Claim(AwaitingApproval, 0)];
    Extend(s0, o1, Elapse(60), s1);
    Extend(s0, o1 + [Elapse(60)], Claim(Running, 1), Apply(s1, Elapse(60)));
    ops := o1 + [Elapse(60)] + [Claim(Running, 1)];
    assert [0] + [1] == [0, 1];
  }

  function WithRecord(s: Store, id: Id): Store {
    s.(blobs := s.blobs + {id}, artifacts := s.artifacts[id := PendingApproval])
  }

  /** The bundle staged: all files first, then each blob and its artifact record. */
  function Bundled(s: Store): Store {
    WithRecord(WithRecord(s.(files := s.files[ART := PendingApproval][MAN := PendingApproval]), ART), MAN)
  }

  lemma StageRecord(s0: Store, before: seq<Op>, s: Store, id: Id) returns (ops: seq<Op>)
    requires IsRun(s0, before) && Exec(s0, before) == s
    ensures IsRun(s0, ops) && Exec(s0, ops) == WithRecord(s, id)
    ensures ops == before + [StageBlob(id)] + [StageArtifact(id)]
  {
    Extend(s0, before, StageBlob(id), s);
    Extend(s0, before + [StageBlob(id)], StageArtifact(id), Apply(s, StageBlob(id)));
    ops := before + [StageBlob(id)] + [StageArtifact(id)];
  }

  lemma StageBundle(s0: Store, before: seq<Op>, s: Store) returns (ops: seq<Op>)
    requires IsRun(s0, before) && Exec(s0, before) == s && s.files == map[]
    ensures IsRun(s0, ops) && Exec(s0, ops) == Bundled(s)
  {
    IdsDiffer();
    Extend(s0, before, StageFile(ART), s);
    var o1, s1 := before + [StageFile(ART)], Apply(s, StageFile(ART));
    Extend(s0, o1, StageFile(MAN), s1);
    var o2, s2 := o1 + [StageFile(MAN)], Apply(s1, StageFile(MAN));
    var o3 := StageRecord(s0, o2, s2, ART);
    ops := StageRecord(s0, o3, WithRecord(s2, ART), MAN);
  }

  predicate IsPending(m: map<Id, Visibility>, id: Id) { id in m && m[id] == PendingApproval }

  lemma StagedIsReached() returns (ops: seq<Op>)
    ensures Init(Paused()) && IsRun(Paused(), ops) && Exec(Paused(), ops) == Staged()
  {
    var o3 := ReclaimedIsReached();
    var o9 := StageBundle(Paused(), o3, Reclaimed());
    Extend(Paused(), o9, ShareOutputs, Bundled(Reclaimed()));
    ops := o9 + [ShareOutputs];
    assert {} + {ART} + {MAN} == {ART, MAN};
  }

  lemma TargetsOfStaged()
    ensures CommitOutputs(Staged().run, [ART]) == [ART] && CommitTargets(Staged().run, [ART]) == [ART]
  {
    IdsDiffer();
    assert [ART] + [ART] == [ART, ART] && [ART, ART][..1] == [ART] && [ART][..0] == [];
    assert Dedup([ART]) == [ART];
  }

  lemma StagedIsAccepted()
    ensures Enabled(Staged(), Commit(1, [ART])) && CommitAccepted(Staged(), 1, [ART])
    ensures Publish(Staged(), 1, [ART]).run.outputs == [ART]
    ensures Publish(Staged(), 1, [ART]).artifacts == map[ART := Published, MAN := PendingApproval]
  {
    IdsDiffer();
    TargetsOfStaged();
    assert AsSet([ART]) == {ART};
  }

  /** The second claimant's commit goes through, and publishes everything but the manifest's artifact record. */
  lemma StagedCommits()
    ensures Enabled(Staged(), Commit(1, [ART])) && CommitAccepted(Staged(), 1, [ART])
    ensures Publish(Staged(), 1, [ART]).run.outputs == [ART]
    ensures Publish(Staged(), 1, [ART]).artifacts == map[ART := Published, MAN := PendingApproval]
    ensures PublishedIffCompleted(Publish(Staged(), 1, [ART]), {MAN})
  {
    hide CommitReachesAll, PublishedIffCompleted, Publish, CommitAccepted;
    StagedIsAccepted();
    CommitReachesAllIff(Staged(), [ART], {MAN});
    CommitPublishes(Staged(), 1, [ART], {MAN});
  }

  lemma CommittedIsReached() returns (ops: seq<Op>)
    ensures Init(Paused()) && IsRun(Paused(), ops) && Exec(Paused(), ops) == Publish(Staged(), 1, [ART])
  {
    var before := StagedIsReached();
    StagedCommits();
    Extend(Paused(), before, Commit(1, [ART]), Staged());
    ops := before + [Commit(1, [ART])];
  }

  /** The ordinary run: its commit leaves the manifest's artifact record pending for good. */
  lemma ManifestArtifactIsLeftPending() returns (ops: seq<Op>)
    ensures Init(Paused()) && IsRun(Paused(), ops)
    ensures var t := Exec(Paused(), ops);
            && t.run.status == Completed && t.run.manifest == Some(MAN)
            && IsPublished(t.files, MAN) && IsPending(t.artifacts, MAN)
            && PublishedIffCompleted(t, {MAN}) && !PublishedIffCompleted(t, {})
  {
    IdsDiffer();
    ops := CommittedIsReached();
    StagedCommits();
    var t := Publish(Staged(), 1, [ART]);
    assert MAN in ManifestList(t.run) && MAN in Due(t);
  }

  /** Two approvers bundle, the second after the first one's lease ran out; the second commits, and the first
      then writes its artifact record: the run is COMPLETED and its artifact is pending. */
  lemma LateBundlerUnpublishes() returns (ops: seq<Op>)
    ensures Init(Paused()) && IsRun(Paused(), ops)
    ensures var t := Exec(Paused(), ops);
            t.run.status == Completed && IsPending(t.artifacts, ART) && !PublishedIffCompleted(t, {MAN})
  {
    IdsDiffer();
    var before := CommittedIsReached();
    StagedCommits();
    var done := Publish(Staged(), 1, [ART]);
    Extend(Paused(), before, StageArtifact(ART), done);
    ops := before + [StageArtifact(ART)];
    assert ART in Due(Apply(done, StageArtifact(ART)));
  }

  /** Or the first one fails, and deletes the file that the upload had handed it as its own: the run is COMPLETED
      and its deliverable has no file record. */
  lemma LateDropUnpublishes() returns (ops: seq<Op>)
    ensures Init(Paused()) && IsRun(Paused(), ops)
    ensures var t := Exec(Paused(), ops);
            t.run.status == Completed && ART in t.run.outputs && ART !in t.files && !PublishedIffCompleted(t, {MAN})
  {
    IdsDiffer();
    var before := CommittedIsReached();
    StagedCommits();
    var done := Publish(Staged(), 1, [ART]);
    Extend(Paused(), before, DropFile(ART), done);
    ops := before + [DropFile(ART)];
    assert ART in Due(Apply(done, DropFile(ART)));
  }

  // ---------------------------------------------------------------- aborts

  /** Claimed once, staged, and the lease run out. */
  function Expired(): Store {
    Bundled(Paused()).(run := Run(Running, Gate(Approving, Some(0), Some(60)), Unknown, None, [ART], Some(MAN), 2),
                       now := 60, claims := [0])
  }

  lemma ExpiredIsReached() returns (ops: seq<Op>)
    ensures Init(Paused()) && IsRun(Paused(), ops) && Exec(Paused(), ops) == Expired()
  {
    var s0 := Paused();
    Extend(s0, [], Claim(AwaitingApproval, 0), s0);
    var o1, s1 := [] + [Claim(AwaitingApproval, 0)], Apply(s0, Claim(AwaitingApproval, 0));
    var o2 := StageBundle(s0, o1, s1);
    Extend(s0, o2, ShareOutputs, Bundled(s1));
    var o3, s3 := o2 + [ShareOutputs], Apply(Bundled(s1), ShareOutputs);
    Extend(s0, o3, Elapse(60), s3);
    ops := o3 + [Elapse(60)];
    assert [] + [0] == [0];
  }

  /** What a reconciler reads of a run that names the bundle. */
  lemma NamesBundle(run: Run)
    requires run.outputs == [ART] && run.manifest == Some(MAN)
    ensures ReconcileIds(run) == [ART, MAN]
  {
    IdsDiffer();
  }

  /** A reconciler reads an expired lease; before it writes, another approver claims the run; and the abort of what
      was read fails the run under that claim's live lease. */
  lemma AbortCanHitNewerLease() returns (ops: seq<Op>, r: Reconciling)
    ensures Init(Paused()) && IsRun(Paused(), ops)
    ensures Recorded(Paused(), ops, 0, r) && ReconcileIds(r.read) == [ART, MAN] && AbortDue(r.read, r.clock, false)
    ensures r.wrote == Some(|ops| - 1) && HitLiveLease(Paused(), ops, r.wrote.value)
    ensures Exec(Paused(), ops).run.status == Failed
  {
    var s0, s := Paused(), Expired();
    var before := ExpiredIsReached();
    NamesBundle(s.run);
    Extend(s0, before, Claim(Running, 1), s);
    var o1, s1 := before + [Claim(Running, 1)], Apply(s, Claim(Running, 1));
    var abort := ReconcileFailed(CleanupsFor([ART, MAN], s.run.version));
    Extend(s0, o1, abort, s1);
    ops := o1 + [abort];
    r := Reconciling(s.run, |before|, s.now, |before|, Some(|o1|));
    assert ops[..|before|] == before && ops[..|o1|] == o1;
    AbortFails(s1, [ART, MAN], s.run.version);
  }

  lemma AbortFails(s: Store, ids: seq<Id>, version: nat)
    requires s.run.status == Running && s.artifacts == Bundled(Paused()).artifacts && s.run.outputs != []
    ensures Apply(s, ReconcileFailed(CleanupsFor(ids, version)))
         == s.(run := Settle(s.run, Failed, Aborted, GateFailed), jobs := Enqueue(s.jobs, CleanupsFor(ids, version)))
  {
    IdsDiffer();
    assert s.run.outputs[0] in Deliverables(s.run);
  }

  /** Claimed and staged under a copying store, and the commit's answer lost. */
  function Uncertain(): Store {
    Bundled(Paused()).(
      run := Run(Running, Gate(Approving, Some(0), Some(60)), CommitStatus.Uncertain, Some(0), [], None, 3),
      claims := [0])
  }

  lemma UncertainIsReached() returns (ops: seq<Op>)
    ensures Init(Paused()) && IsRun(Paused(), ops) && Exec(Paused(), ops) == Uncertain()
    ensures ops != [] && ops[|ops| - 1] == MarkUncertain
  {
    var s0 := Paused();
    Extend(s0, [], Claim(AwaitingApproval, 0), s0);
    var o1, s1 := [] + [Claim(AwaitingApproval, 0)], Apply(s0, Claim(AwaitingApproval, 0));
    var o2 := StageBundle(s0, o1, s1);
    Extend(s0, o2, MarkUncertain, Bundled(s1));
    ops := o2 + [MarkUncertain];
    assert [] + [0] == [0];
  }

  /** Aborting it enqueues nothing, and what was staged is stranded. */
  lemma UncertainIsStranded()
    requires Inv(Uncertain())
    ensures var t := Apply(Uncertain(), ReconcileFailed(CleanupsFor([], 3)));
            t.run.status == Failed && t.jobs == map[] && IsPending(t.artifacts, ART) && !CanBeSwept(t, ART)
  {
    IdsDiffer();
    AbortOutcome(Uncertain(), CleanupsFor([], 3));
    assert Enqueue(map[], CleanupsFor([], 3)) == map[];
    SweptIffNamed(Uncertain(), [], 3, ART);
  }

  /** The store hands out copies, so the stored run names nothing; the commit's answer is lost before the commit.
      The approver then reconciles its own run, unforced, and fails it under its own live lease. What it had staged is
      stranded. */
  lemma LostAnswerFailsOwnRun() returns (ops: seq<Op>, r: Reconciling)
    ensures Init(Paused()) && IsRun(Paused(), ops)
    ensures Recorded(Paused(), ops, 0, r) && ReconcileIds(r.read) == [] && AbortDue(r.read, r.clock, false)
    ensures |ops| > 1 && ops[|ops| - 2] == MarkUncertain
    ensures r.readAt == r.clockAt == |ops| - 1 && r.wrote == Some(|ops| - 1)
    ensures HitLiveLease(Paused(), ops, r.wrote.value)
    ensures var t := Exec(Paused(), ops);
            t.run.status == Failed && t.jobs == map[] && IsPending(t.artifacts, ART) && !CanBeSwept(t, ART)
  {
    hide Apply, CanBeSwept, Inv, IsRun;
    var before := UncertainIsReached();
    var n, abort := |before|, ReconcileFailed(CleanupsFor([], 3));
    Extend(Paused(), before, abort, Uncertain());
    ops, r := before + [abort], Reconciling(Uncertain().run, n, 0, n, Some(n));
    assert ops[..n] == before && before[..n] == before;
    InvAlways(Paused(), before, n);
    UncertainIsStranded();
  }

  /** The same through the endpoint: an approval that nobody disturbs. */
  method LoseTheAnswer() returns (store: MemoryStore, outcome: Outcome)
    ensures fresh(store) && store.Valid() && store.Quiet() && outcome.CommitUncertain?
    ensures store.run.status == Failed && store.jobs == map[] && store.blobs == {ART, MAN}
  {
    store := new MemoryStore(Paused(), n => []);
    var own;
    ghost var d;
    outcome, own, d := ApproveRunGate(store, true, 0, Environment(4, false, {}, LostBeforeCommit, false));
    assert AsSet([ART] + [MAN]) == {ART, MAN};
  }

  lemma ExpiredIsAborted()
    ensures var t := Apply(Expired(), ReconcileFailed(CleanupsFor([ART, MAN], 2)));
            && Accepted(Expired(), ReconcileFailed(CleanupsFor([ART, MAN], 2)))
            && t.run.status == Failed && t.now == 60 && ART in t.blobs && !TargetPublished(t, ART)
            && JobId(ART, 2) in t.jobs && t.jobs[JobId(ART, 2)] == FRESH_JOB
  {
    AbortFails(Expired(), [ART, MAN], 2);
    assert CleanupsFor([ART, MAN], 2)[0] == JobId(ART, 2);
  }

  lemma SweeperCrashes(t: Store, job: JobId, worker: Token, lease: Token)
    requires job in t.jobs && t.jobs[job] == FRESH_JOB && !TargetPublished(t, job.artifact) && job.artifact in t.blobs
    ensures var u := Apply(Apply(t, ClaimJob(job, worker, lease)), Elapse(60));
            Abandoned(u, job) && job.artifact in u.blobs
  {
  }

  /** A cleanup job whose sweeper crashed is reached: the lease of a run that names its bundle expires, an abort
      enqueues what was read, a sweeper claims a job, and a minute passes. */
  lemma AbandonedJobIsReached(worker: Token, lease: Token) returns (ops: seq<Op>, r: Reconciling)
    ensures Init(Paused()) && IsRun(Paused(), ops)
    ensures Recorded(Paused(), ops, 0, r) && ReconcileIds(r.read) == [ART, MAN] && AbortDue(r.read, r.clock, false)
    ensures r.wrote.Some? && Effective(Paused(), ops, r.wrote.value)
    ensures Abandoned(Exec(Paused(), ops), JobId(ART, r.read.version)) && ART in Exec(Paused(), ops).blobs
  {
    hide Apply, Abandoned, IsRun, TargetPublished;
    var s0, s, job, abort := Paused(), Expired(), JobId(ART, 2), ReconcileFailed(CleanupsFor([ART, MAN], 2));
    var before := ExpiredIsReached();
    NamesBundle(s.run);
    Extend(s0, before, abort, s);
    ExpiredIsAborted();
    var o1, s1 := before + [abort], Apply(s, abort);
    Extend(s0, o1, ClaimJob(job, worker, lease), s1);
    var o2, s2 := o1 + [ClaimJob(job, worker, lease)], Apply(s1, ClaimJob(job, worker, lease));
    Extend(s0, o2, Elapse(60), s2);
    SweeperCrashes(s1, job, worker, lease);
    ops, r := o2 + [Elapse(60)], Reconciling(s.run, |before|, s.now, |before|, Some(|before|));
    assert ops[..|before|] == before;
  }

  /** A commit publishes a plain-file manifest's file record but never its artifact record. */
  lemma FileManifestArtifactStaysPending(s: Store, token: Token, outputs: seq<Id>, m: Id)
    requires CommitAccepted(s, token, outputs)
    requires s.run.manifest == Some(m) && IsFileId(m) && m !in s.run.outputs + outputs
    requires m in s.artifacts && m in s.files
    ensures Apply(s, Commit(token, outputs)).artifacts[m] == s.artifacts[m]
    ensures Apply(s, Commit(token, outputs)).files[m] == Published
  {
    assert m !in CommitOutputs(s.run, outputs);
    assert m in ManifestList(s.run);
  }

  /** The rollback after a refused commit is not tied to the token: it undoes whichever claim is live,
      and that claimant's commit is then refused. */
  lemma RollbackUndoesAnyClaim(s: Store, token: Token, outputs: seq<Id>)
    requires s.run.status == Running
    ensures !Accepted(Apply(s, Rollback), Commit(token, outputs))
    ensures Accepted(Apply(s, Rollback), Claim(AwaitingApproval, token))
  {
  }

  lemma StagedIsTakenDown()
    ensures Apply(Staged(), Commit(0, [ART])) == Staged() && !Accepted(Staged(), Commit(0, [ART]))
    ensures Accepted(Staged(), Rollback)
    ensures var back := Apply(Staged(), Rollback);
      back.run.status == AwaitingApproval && !Accepted(back, Commit(1, [ART])) && Apply(back, Commit(1, [ART])) == back
  {
  }

  /** The run: the first claimant's commit is refused, its rollback undoes the second one's claim, and the second
      one's commit, which would have gone through before, is refused. */
  lemma RollbackTakesDownTheReclaimer() returns (ops: seq<Op>, n: nat)
    ensures Init(Paused()) && IsRun(Paused(), ops) && |ops| == n + 3
    ensures ops[n] == Commit(0, [ART]) && ops[n + 1] == Rollback && ops[n + 2] == Commit(1, [ART])
    ensures !Accepted(At(Paused(), ops, n), ops[n]) && Accepted(At(Paused(), ops, n + 1), ops[n + 1])
    ensures Accepted(At(Paused(), ops, n + 1), ops[n + 2]) && !Accepted(At(Paused(), ops, n + 2), ops[n + 2])
    ensures Exec(Paused(), ops).run.status == AwaitingApproval
  {
    StagedCommits();
    StagedIsTakenDown();
    var s0 := Paused();
    var o0 := StagedIsReached();
    Extend(s0, o0, Commit(0, [ART]), Staged());
    var o1 := o0 + [Commit(0, [ART])];
    Extend(s0, o1, Rollback, Staged());
    var o2 := o1 + [Rollback];
    Extend(s0, o2, Commit(1, [ART]), Apply(Staged(), Rollback));
    ops, n := o2 + [Commit(1, [ART])], |o0|;
    assert ops[..n] == o0 && ops[..n + 1] == o1 && ops[..n + 2] == o2;
  }
}
