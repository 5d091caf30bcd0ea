/** The store as an object: one method per atomic operation, each proved against `Apply`. */
module ApprovalStore {
  import opened Options
  import opened ApprovalProtocol
  import opened ApprovalRuns

  lemma EnqueueOneMore(jobs: map<JobId, Job>, cleanups: seq<JobId>, job: JobId)
    ensures Enqueue(jobs, cleanups + [job]) == Enqueue(jobs, cleanups)[job := FRESH_JOB]
  {
    assert job in cleanups + [job];
    assert forall j :: j in cleanups + [job] <==> j in cleanups || j == job;
  }

  class MemoryStore {
    var run: Run
    const bundle: seq<Id>
    const bundleManifest: Id
    var artifacts: map<Id, Visibility>
    var files: map<Id, Visibility>
    var blobs: set<Id>
    var jobs: map<JobId, Job>
    var now: int
    var claims: seq<Token>
    var commits: seq<Token>

    /** What the other approvers, reconcilers and sweepers do before the n-th access of the
        program that owns this handle. */
    const others: nat -> seq<Op>
    var accesses: nat

    ghost const origin: Store
    ghost var history: seq<Op>

    /** The staging steps that this handle itself issued, in order. */
    ghost var staging: seq<Op>

    /** Where in the history the aborts stand that this handle itself issued. */
    ghost var aborts: seq<nat>

    /** And its claims of the decision. */
    ghost var decisions: seq<nat>

    function View(): Store
      reads this
    {
      Store(run, bundle, bundleManifest, artifacts, files, blobs, jobs, now, claims, commits)
    }

    ghost predicate Valid()
      reads this
    {
      Init(origin) && IsRun(origin, history) && View() == Exec(origin, history) && Inv(View())
    }

    ghost predicate Quiet() { forall n :: others(n) == [] }

    constructor (s: Store, others: nat -> seq<Op>)
      requires Init(s)
      ensures Valid() && View() == s && this.others == others
    {
      run, bundle, bundleManifest := s.run, s.bundle, s.bundleManifest;
      artifacts, files, blobs, jobs := s.artifacts, s.files, s.blobs, s.jobs;
      now, claims, commits := s.now, s.claims, s.commits;
      this.others, accesses := others, 0;
      origin, history, staging, aborts, decisions := s, [], [], [], [];
      new;
      InitEstablishes(s, {});
    }

    ghost method Log(pre: Store, op: Op)
      requires Init(origin) && IsRun(origin, history) && Exec(origin, history) == pre && Inv(pre)
      requires Enabled(pre, op) && View() == Apply(pre, op)
      modifies this`history
      ensures Valid() && history == old(history) + [op]
    {
      IsRunExtends(origin, history, op);
      InvStep(pre, op);
      history := history + [op];
    }

    /** The steps of everyone else, as far as they are enabled when their turn comes. */
    method Interfere()
      requires Valid()
      modifies this
      ensures Valid() && old(history) <= history && Evolves(old(View()), View())
      ensures staging == old(staging) && aborts == old(aborts) && decisions == old(decisions)
      ensures Quiet() ==> View() == old(View()) && history == old(history)
    {
      var ops := others(accesses);
      accesses := accesses + 1;
      for i := 0 to |ops|
        invariant Valid() && old(history) <= history && Evolves(old(View()), View())
        invariant staging == old(staging) && aborts == old(aborts) && decisions == old(decisions)
        invariant Quiet() ==> View() == old(View()) && history == old(history)
      {
        if Enabled(View(), ops[i]) {
          ghost var mid := View();
          Perform(ops[i]);
          EvolvesStep(mid, ops[i]);
          EvolvesTransitive(old(View()), mid, View());
        }
      }
    }

    method Perform(op: Op)
      requires Valid() && Enabled(View(), op)
      modifies this
      ensures Valid() && accesses == old(accesses) && history == old(history) + [op]
      ensures staging == old(staging) && aborts == old(aborts) && decisions == old(decisions)
      ensures View() == Apply(old(View()), op)
    {
      Install(Apply(View(), op));
      Log(old(View()), op);
    }

    method Install(next: Store)
      requires next.bundle == bundle && next.bundleManifest == bundleManifest
      modifies this
      ensures View() == next && history == old(history) && accesses == old(accesses)
      ensures staging == old(staging) && aborts == old(aborts) && decisions == old(decisions)
    {
      run, artifacts, files, blobs := next.run, next.artifacts, next.files, next.blobs;
      jobs, now, claims, commits := next.jobs, next.now, next.claims, next.commits;
    }

    // -------------------------------------------------------------- staging

    method StageFile(id: Id)
      requires Valid()
      modifies this`files, this`history, this`staging
      ensures Valid() && history == old(history) + [Op.StageFile(id)] && staging == old(staging) + [Op.StageFile(id)]
      ensures View() == Apply(old(View()), Op.StageFile(id))
    {
      if id !in files { files := files[id := PendingApproval]; }
      Log(old(View()), Op.StageFile(id));
      staging := staging + [Op.StageFile(id)];
    }

    method StageBlob(id: Id)
      requires Valid()
      modifies this`blobs, this`history, this`staging
      ensures Valid() && history == old(history) + [Op.StageBlob(id)] && staging == old(staging) + [Op.StageBlob(id)]
      ensures View() == Apply(old(View()), Op.StageBlob(id))
    {
      blobs := blobs + {id};
      Log(old(View()), Op.StageBlob(id));
      staging := staging + [Op.StageBlob(id)];
    }

    method StageArtifact(id: Id)
      requires Valid() && Enabled(View(), Op.StageArtifact(id))
      modifies this`artifacts, this`history, this`staging
      ensures Valid() && history == old(history) + [Op.StageArtifact(id)]
                && staging == old(staging) + [Op.StageArtifact(id)]
      ensures View() == Apply(old(View()), Op.StageArtifact(id))
    {
      artifacts := artifacts[id := PendingApproval];
      Log(old(View()), Op.StageArtifact(id));
      staging := staging + [Op.StageArtifact(id)];
    }

    method DropFile(id: Id)
      requires Valid()
      modifies this`files, this`history, this`staging
      ensures Valid() && history == old(history) + [Op.DropFile(id)] && staging == old(staging) + [Op.DropFile(id)]
      ensures View() == Apply(old(View()), Op.DropFile(id))
    {
      files := files - {id};
      Log(old(View()), Op.DropFile(id));
      staging := staging + [Op.DropFile(id)];
    }

    method ShareOutputs()
      requires Valid()
      modifies this`run, this`history
      ensures Valid() && history == old(history) + [Op.ShareOutputs]
      ensures View() == Apply(old(View()), Op.ShareOutputs)
    {
      run := run.(outputs := bundle, manifest := Some(bundleManifest));
      Log(old(View()), Op.ShareOutputs);
    }

    // -------------------------------------------------------------- status CAS

    method CompareAndSwapRunStatus(expected: RunStatus, next: RunStatus, mutator: Run -> Run) returns (ok: bool)
      modifies this`run
      ensures ok == (old(run).status == expected)
      ensures run == if ok then mutator(old(run).(status := next, version := old(run).version + 1)) else old(run)
    {
      if run.status != expected { return false; }
      run := run.(status := next, version := run.version + 1);
      run := mutator(run);
      return true;
    }

    method Claim(expected: RunStatus, token: Token) returns (ok: bool)
      requires Valid() && Enabled(View(), Op.Claim(expected, token))
      modifies this`run, this`claims, this`history, this`decisions
      ensures Valid() && history == old(history) + [Op.Claim(expected, token)]
      ensures decisions == old(decisions) + [|old(history)|]
      ensures ok == Accepted(old(View()), Op.Claim(expected, token))
      ensures View() == Apply(old(View()), Op.Claim(expected, token))
    {
      var until := now + LEASE_SECONDS;
      ok := CompareAndSwapRunStatus(expected, Running,
          (r: Run) => r.(gate := Gate(Approving, Some(token), Some(until))));
      if ok { claims := claims + [token]; }
      decisions := decisions + [|history|];
      Log(old(View()), Op.Claim(expected, token));
    }

    method Rollback() returns (ok: bool)
      requires Valid()
      modifies this`run, this`history
      ensures Valid() && history == old(history) + [Op.Rollback]
      ensures ok == Accepted(old(View()), Op.Rollback)
      ensures View() == Apply(old(View()), Op.Rollback)
    {
      ok := CompareAndSwapRunStatus(Running, AwaitingApproval, (r: Run) => r.(gate := Gate(Pending, None, None)));
      Log(old(View()), Op.Rollback);
    }

    method MarkUncertain() returns (ok: bool)
      requires Valid()
      modifies this`run, this`history
      ensures Valid() && history == old(history) + [Op.MarkUncertain]
      ensures ok == Accepted(old(View()), Op.MarkUncertain)
      ensures View() == Apply(old(View()), Op.MarkUncertain)
    {
      var at := now;
      ok := CompareAndSwapRunStatus(Running, Running, (r: Run) => r.(commit := Uncertain, uncertainSince := Some(at)));
      Log(old(View()), Op.MarkUncertain);
    }

    // -------------------------------------------------------------- decisions

    method PublishAll(targets: seq<Id>)
      modifies this`artifacts, this`files
      ensures artifacts == Overwrite(old(artifacts), AsSet(targets), Published)
      ensures files == Overwrite(old(files), AsSet(targets) + Mirrors(targets), Published)
    {
      for i := 0 to |targets|
        invariant artifacts == Overwrite(old(artifacts), AsSet(targets[..i]), Published)
        invariant files == Overwrite(old(files), AsSet(targets[..i]) + Mirrors(targets[..i]), Published)
      {
        PrefixGrows(targets, i);
        OverwriteGrows(old(artifacts), AsSet(targets[..i]), targets[i], Published);
        artifacts := Stamp(artifacts, targets[i], Published);
        ghost var done := AsSet(targets[..i]) + Mirrors(targets[..i]);
        OverwriteGrows(old(files), done, targets[i], Published);
        files := Stamp(files, targets[i], Published);
        if IsArtId(targets[i]) {
          OverwriteGrows(old(files), done + {targets[i]}, MirrorFile(targets[i]), Published);
          files := Stamp(files, MirrorFile(targets[i]), Published);
          assert done + {targets[i]} + {MirrorFile(targets[i])} == AsSet(targets[..i + 1]) + Mirrors(targets[..i + 1]);
        } else {
          assert done + {targets[i]} == AsSet(targets[..i + 1]) + Mirrors(targets[..i + 1]);
        }
      }
      assert targets[..|targets|] == targets;
    }

    method WithdrawAll(targets: seq<Id>)
      modifies this`artifacts, this`files
      ensures artifacts == Overwrite(old(artifacts), AsSet(targets), Withdrawn)
      ensures files == Overwrite(old(files), AsSet(targets), Withdrawn)
    {
      for i := 0 to |targets|
        invariant artifacts == Overwrite(old(artifacts), AsSet(targets[..i]), Withdrawn)
        invariant files == Overwrite(old(files), AsSet(targets[..i]), Withdrawn)
      {
        PrefixGrows(targets, i);
        OverwriteGrows(old(artifacts), AsSet(targets[..i]), targets[i], Withdrawn);
        OverwriteGrows(old(files), AsSet(targets[..i]), targets[i], Withdrawn);
        artifacts := Stamp(artifacts, targets[i], Withdrawn);
        files := Stamp(files, targets[i], Withdrawn);
      }
      assert targets[..|targets|] == targets;
    }

    method EnqueueAll(cleanups: seq<JobId>)
      modifies this`jobs
      ensures jobs == Enqueue(old(jobs), cleanups)
    {
      for i := 0 to |cleanups|
        invariant jobs == Enqueue(old(jobs), cleanups[..i])
      {
        EnqueueOneMore(old(jobs), cleanups[..i], cleanups[i]);
        assert cleanups[..i + 1] == cleanups[..i] + [cleanups[i]];
        jobs := jobs[cleanups[i] := FRESH_JOB];
      }
      assert cleanups[..|cleanups|] == cleanups;
    }

    method CheckAllPending(ids: seq<Id>) returns (all: bool)
      ensures all <==> forall a | a in ids :: a in artifacts && artifacts[a] == PendingApproval
    {
      all := true;
      for i := 0 to |ids|
        invariant all <==> forall k | 0 <= k < i :: ids[k] in artifacts && artifacts[ids[k]] == PendingApproval
      {
        if !(ids[i] in artifacts && artifacts[ids[i]] == PendingApproval) { all := false; }
      }
    }

    method PublishRecords(outputs: seq<Id>)
      modifies this`artifacts, this`files
      ensures artifacts == Overwrite(old(artifacts), AsSet(CommitTargets(run, outputs)), Published)
      ensures files == Overwrite(old(files), CommitFiles(run, outputs), Published)
    {
      var targets := CommitTargets(run, outputs);
      PublishAll(targets);
      if run.manifest.Some? {
        OverwriteGrows(old(files), AsSet(targets) + Mirrors(targets), run.manifest.value, Published);
        files := Stamp(files, run.manifest.value, Published);
      }
      assert AsSet(targets) + Mirrors(targets) + AsSet(ManifestList(run)) == CommitFiles(run, outputs);
    }

    method PublishIfAccepted(token: Token, outputs: seq<Id>) returns (ok: bool)
      modifies this`run, this`artifacts, this`files, this`commits
      ensures ok == CommitAccepted(old(View()), token, outputs)
      ensures View() == if ok then Publish(old(View()), token, outputs) else old(View())
    {
      ok := run.status == Running && run.gate.status == Approving && run.gate.token == Some(token);
      if ok { ok := CheckAllPending(CommitTargets(run, outputs)); }
      if ok {
        PublishRecords(outputs);
        run := run.(status := Completed, gate := run.gate.(status := Approved),
                    outputs := CommitOutputs(run, outputs), version := run.version + 1);
        commits := commits + [token];
      }
    }

    method ApproveGateAndPublishArtifacts(token: Token, outputs: seq<Id>) returns (ok: bool)
      requires Valid() && Enabled(View(), Commit(token, outputs))
      modifies this`run, this`artifacts, this`files, this`commits, this`history
      ensures Valid() && history == old(history) + [Commit(token, outputs)]
      ensures ok == Accepted(old(View()), Commit(token, outputs))
      ensures View() == Apply(old(View()), Commit(token, outputs))
    {
      ok := PublishIfAccepted(token, outputs);
      Log(old(View()), Commit(token, outputs));
    }

    method RejectGateAndFailArtifacts() returns (ok: bool)
      requires Valid()
      modifies this`run, this`artifacts, this`files, this`history
      ensures Valid() && history == old(history) + [Reject]
      ensures ok == Accepted(old(View()), Reject)
      ensures View() == Apply(old(View()), Reject)
    {
      ghost var pre := View();
      ok := run.status == AwaitingApproval;
      if ok {
        var targets := Deliverables(run);
        run := run.(status := Failed, gate := run.gate.(status := Rejected), version := run.version + 1);
        WithdrawAll(targets);
      }
      Log(pre, Reject);
    }

    method CheckAllPublished(ids: seq<Id>) returns (all: bool)
      ensures all <==> forall a | a in ids :: IsPublished(artifacts, a) && IsPublished(files, a)
    {
      all := true;
      for i := 0 to |ids|
        invariant all <==> forall k | 0 <= k < i :: IsPublished(artifacts, ids[k]) && IsPublished(files, ids[k])
      {
        if !(IsPublished(artifacts, ids[i]) && IsPublished(files, ids[i])) { all := false; }
      }
    }

    method ReconcileAsCompleted() returns (ok: bool)
      requires Valid() && Enabled(View(), ReconcileCompleted)
      modifies this`run, this`history
      ensures Valid() && history == old(history) + [ReconcileCompleted]
      ensures ok == Accepted(old(View()), ReconcileCompleted)
      ensures View() == Apply(old(View()), ReconcileCompleted)
    {
      if run.status == Completed && run.commit == Committed {
        ok := true;
      } else if run.status != Running {
        ok := false;
      } else {
        ok := CheckAllPublished(Deliverables(run));
        if ok { run := Settle(run, Completed, Committed, Approved); }
      }
      Log(old(View()), ReconcileCompleted);
    }

    method AbortIfApplicable(cleanups: seq<JobId>) returns (ok: bool)
      modifies this`run, this`jobs
      ensures ok == Accepted(old(View()), ReconcileFailed(cleanups))
      ensures View() == Apply(old(View()), ReconcileFailed(cleanups))
    {
      if run.status == Failed && run.commit == Aborted {
        ok := true;
      } else if run.status != Running {
        ok := false;
      } else {
        var ids := Deliverables(run);
        var all := CheckAllPublished(ids);
        ok := !(ids != [] && all);
        if ok {
          run := Settle(run, Failed, Aborted, GateFailed);
          EnqueueAll(cleanups);
        }
      }
    }

    method ReconcileAsFailed(cleanups: seq<JobId>) returns (ok: bool)
      requires Valid()
      modifies this`run, this`jobs, this`history, this`aborts
      ensures Valid() && history == old(history) + [ReconcileFailed(cleanups)]
      ensures aborts == old(aborts) + [|old(history)|]
      ensures ok == Accepted(old(View()), ReconcileFailed(cleanups))
      ensures View() == Apply(old(View()), ReconcileFailed(cleanups))
    {
      ok := AbortIfApplicable(cleanups);
      aborts := aborts + [|history|];
      Log(old(View()), ReconcileFailed(cleanups));
    }

    // -------------------------------------------------------------- cleanup jobs

    method HoldJob(job: JobId, worker: Token, lease: Token) returns (claimed: Option<Job>)
      modifies this`jobs, this`artifacts, this`files
      ensures claimed.Some? == Accepted(old(View()), ClaimJob(job, worker, lease))
      ensures claimed.Some? ==> job in jobs && claimed.value == jobs[job] && claimed.value.lease == Some(lease)
      ensures View() == Apply(old(View()), ClaimJob(job, worker, lease))
    {
      claimed := None;
      if JobClaimable(View(), job, worker) {
        var j := jobs[job];
        if TargetPublished(View(), job.artifact) {
          jobs := jobs[job := j.(status := Cancelled)];
        } else {
          j := j.(status := Held, owner := Some(worker), lease := Some(lease),
                  leaseUntil := Some(now + LEASE_SECONDS), version := j.version + 1);
          jobs := jobs[job := j];
          artifacts := Block(artifacts, job.artifact);
          files := Block(files, job.artifact);
          claimed := Some(j);
        }
      }
    }

    method ClaimArtifactCleanupJob(job: JobId, worker: Token, lease: Token) returns (claimed: Option<Job>)
      requires Valid()
      modifies this`jobs, this`artifacts, this`files, this`history
      ensures Valid() && history == old(history) + [ClaimJob(job, worker, lease)]
      ensures claimed.Some? == Accepted(old(View()), ClaimJob(job, worker, lease))
      ensures claimed.Some? ==> job in jobs && claimed.value == jobs[job] && claimed.value.lease == Some(lease)
      ensures View() == Apply(old(View()), ClaimJob(job, worker, lease))
    {
      claimed := HoldJob(job, worker, lease);
      Log(old(View()), ClaimJob(job, worker, lease));
    }

    method CancelArtifactCleanupJob(job: JobId) returns (ok: bool)
      requires Valid()
      modifies this`jobs, this`artifacts, this`files, this`history
      ensures Valid() && history == old(history) + [CancelJob(job)]
      ensures ok == Accepted(old(View()), CancelJob(job))
      ensures View() == Apply(old(View()), CancelJob(job))
    {
      ok := job in jobs;
      if ok {
        jobs := jobs[job := ReleasedJob(jobs[job], Cancelled)];
        artifacts := Flip(artifacts, job.artifact, Cleaning, PendingApproval);
        files := Flip(files, job.artifact, Cleaning, PendingApproval);
      }
      Log(old(View()), CancelJob(job));
    }

    /** `removed` is what the disk answers. */
    method DeleteArtifactBlob(job: JobId, removed: bool)
      requires Valid() && Enabled(View(), DeleteBlob(job, removed))
      modifies this`blobs, this`history
      ensures Valid() && history == old(history) + [DeleteBlob(job, removed)]
      ensures View() == Apply(old(View()), DeleteBlob(job, removed))
    {
      if removed { blobs := blobs - {job.artifact}; }
      Log(old(View()), DeleteBlob(job, removed));
    }

    method CompleteArtifactCleanup(job: JobId, worker: Token, lease: Token, version: nat) returns (ok: bool)
      requires Valid()
      modifies this`jobs, this`artifacts, this`files, this`history
      ensures Valid() && history == old(history) + [CompleteJob(job, worker, lease, version)]
      ensures ok == Accepted(old(View()), CompleteJob(job, worker, lease, version))
      ensures View() == Apply(old(View()), CompleteJob(job, worker, lease, version))
    {
      ok := JobHeld(View(), job, worker, lease, version);
      if ok {
        jobs := jobs[job := ReleasedJob(jobs[job], Done)];
        artifacts := Flip(artifacts, job.artifact, Cleaning, Retired);
        files := Flip(files, job.artifact, Cleaning, Retired);
      }
      Log(old(View()), CompleteJob(job, worker, lease, version));
    }

    method RecordCleanupFailure(job: JobId, worker: Token, lease: Token, version: nat) returns (ok: bool)
      requires Valid()
      modifies this`jobs, this`artifacts, this`files, this`history
      ensures Valid() && history == old(history) + [RecordFailure(job, worker, lease, version)]
      ensures ok == Accepted(old(View()), RecordFailure(job, worker, lease, version))
      ensures View() == Apply(old(View()), RecordFailure(job, worker, lease, version))
    {
      ok := JobHeld(View(), job, worker, lease, version);
      if ok {
        jobs := jobs[job := FailedJob(View(), jobs[job])];
        artifacts := Flip(artifacts, job.artifact, Cleaning, PendingApproval);
        files := Flip(files, job.artifact, Cleaning, PendingApproval);
      }
      Log(old(View()), RecordFailure(job, worker, lease, version));
    }
  }
}
