/** What an abort leaves to the sweepers: which of the staged blobs will ever be cleaned up. */
module ApprovalCleanups {
  import opened ApprovalProtocol
  import opened ApprovalRuns

  /** Some cleanup job, whatever has become of it, is for this artifact. */
  ghost predicate HasJob(s: Store, id: Id) { exists j :: j in s.jobs && j.artifact == id }

  lemma JobsOfAbort(s: Store, ids: seq<Id>, version: nat, id: Id)
    requires Inv(s) && s.run.status == Running
    ensures Apply(s, ReconcileFailed(CleanupsFor(ids, version))).run.status == Failed
    ensures HasJob(Apply(s, ReconcileFailed(CleanupsFor(ids, version))), id) <==> id in ids
  {
    NothingToConfirm(s);
    var cleanups := CleanupsFor(ids, version);
    assert s.jobs == map[];
    if id in ids {
      var i :| 0 <= i < |ids| && ids[i] == id;
      assert cleanups[i] in cleanups;
    }
  }

  /** No other step enqueues or forgets a job. */
  lemma JobsStep(s: Store, op: Op)
    requires Inv(s) && Enabled(s, op) && s.run.status == Failed
    ensures Apply(s, op).run.status == Failed && Apply(s, op).jobs.Keys == s.jobs.Keys
  {
  }

  lemma {:induction false} JobsAreFixed(s: Store, ops: seq<Op>, j: nat, k: nat)
    requires Init(s) && IsRun(s, ops) && j <= k <= |ops| && At(s, ops, j).run.status == Failed
    ensures At(s, ops, k).run.status == Failed && At(s, ops, k).jobs.Keys == At(s, ops, j).jobs.Keys
    decreases k
  {
    if j < k {
      JobsAreFixed(s, ops, j, k - 1);
      InvAlways(s, ops, k - 1);
      EnabledAt(s, ops, k - 1);
      AtNext(s, ops, k - 1);
      JobsStep(At(s, ops, k - 1), ops[k - 1]);
    }
  }

  /** Once a running approval is aborted, an artifact has a cleanup job, then and at any later point, if and only if
      the reconciler had read a run that named it. */
  lemma HasJobIffNamed(s: Store, ops: seq<Op>, w: nat, k: nat, ids: seq<Id>, version: nat, id: Id)
    requires Init(s) && IsRun(s, ops) && w < k <= |ops| && At(s, ops, w).run.status == Running
    requires ops[w] == ReconcileFailed(CleanupsFor(ids, version))
    ensures HasJob(At(s, ops, k), id) <==> id in ids
  {
    InvAlways(s, ops, w);
    AtNext(s, ops, w);
    JobsOfAbort(At(s, ops, w), ids, version, id);
    JobsAreFixed(s, ops, w + 1, k);
    assert forall j :: j in At(s, ops, k).jobs <==> j in At(s, ops, w + 1).jobs;
  }

  // ---------------------------------------------------------------- blobs

  /** A failed run holds a blob that no job is for. */
  ghost predicate Stranded(s: Store, id: Id) { s.run.status == Failed && !HasJob(s, id) && id in s.blobs }

  lemma StrandedStep(s: Store, op: Op, id: Id)
    requires Inv(s) && Enabled(s, op) && Stranded(s, id)
    ensures Stranded(Apply(s, op), id)
  {
    JobsStep(s, op);
    assert forall j :: j in Apply(s, op).jobs <==> j in s.jobs;
  }

  lemma {:induction false} StrandedForGood(s: Store, ops: seq<Op>, id: Id)
    requires Inv(s) && IsRun(s, ops) && Stranded(s, id)
    ensures Inv(Exec(s, ops)) && Stranded(Exec(s, ops), id)
  {
    if ops != [] {
      var before, op := ops[..|ops| - 1], ops[|ops| - 1];
      StrandedForGood(s, before, id);
      InvStep(Exec(s, before), op);
      StrandedStep(Exec(s, before), op, id);
    }
  }

  /** Some continuation removes the blob. */
  ghost predicate CanBeSwept(s: Store, id: Id) { exists ops :: IsRun(s, ops) && id !in Exec(s, ops).blobs }

  /** A sweeper claims the job and deletes. */
  lemma Sweep(s: Store, job: JobId) returns (ops: seq<Op>)
    requires Inv(s) && s.run.status == Failed && job in s.jobs && s.jobs[job] == FRESH_JOB
    ensures IsRun(s, ops) && job.artifact !in Exec(s, ops).blobs
    ensures ops == [ClaimJob(job, 0, 0), DeleteBlob(job, true)] && Accepted(s, ops[0])
  {
    var claimed := Apply(s, ClaimJob(job, 0, 0));
    IsRunExtends(s, [], ClaimJob(job, 0, 0));
    IsRunExtends(s, [] + [ClaimJob(job, 0, 0)], DeleteBlob(job, true));
    ops := [] + [ClaimJob(job, 0, 0)] + [DeleteBlob(job, true)];
  }

  /** A blob that a running approval holds when it is aborted can be removed afterwards if and only if the reconciler
      had read a run that named its artifact; otherwise it stays for good. */
  lemma SweptIffNamed(s: Store, ids: seq<Id>, version: nat, id: Id)
    requires Inv(s) && s.run.status == Running && id in s.blobs
    ensures CanBeSwept(Apply(s, ReconcileFailed(CleanupsFor(ids, version))), id) <==> id in ids
  {
    var cleanups := CleanupsFor(ids, version);
    var t := Apply(s, ReconcileFailed(cleanups));
    InvStep(s, ReconcileFailed(cleanups));
    JobsOfAbort(s, ids, version, id);
    if id in ids {
      var i :| 0 <= i < |ids| && ids[i] == id;
      assert cleanups[i] in cleanups;
      NothingToConfirm(s);
      var _ := Sweep(t, cleanups[i]);
    } else {
      forall ops | IsRun(t, ops) ensures id in Exec(t, ops).blobs { StrandedForGood(t, ops, id); }
    }
  }
}
