/** What several sweepers can do to one cleanup job, over whole runs. */
module ApprovalSweepers {
  import opened Options
  import opened ApprovalProtocol
  import opened ApprovalRuns

  // ---------------------------------------------------------------- one report for each claim

  /** The job is still there, and is older or still in the same hands. */
  predicate Aged(s: Store, t: Store, job: JobId) {
    job in s.jobs ==>
      && job in t.jobs && s.jobs[job].version <= t.jobs[job].version
      && (s.jobs[job].version == t.jobs[job].version ==>
            t.jobs[job].owner == s.jobs[job].owner && t.jobs[job].lease == s.jobs[job].lease)
  }

  lemma AgedStep(s: Store, op: Op, job: JobId)
    requires Inv(s) && Enabled(s, op)
    ensures Aged(s, Apply(s, op), job)
  {
    if s.run.status != Failed { assert s.jobs.Keys == {}; }
  }

  lemma {:induction false} AgedAlways(s: Store, ops: seq<Op>, job: JobId, j: nat, k: nat)
    requires Init(s) && IsRun(s, ops) && j <= k <= |ops|
    ensures Aged(At(s, ops, j), At(s, ops, k), job)
    decreases k
  {
    if j < k {
      AgedAlways(s, ops, job, j, k - 1);
      InvAlways(s, ops, k - 1);
      EnabledAt(s, ops, k - 1);
      AtNext(s, ops, k - 1);
      AgedStep(At(s, ops, k - 1), ops[k - 1], job);
    }
  }

  /** A sweeper's report on a job: done, or failed. */
  predicate Reports(op: Op, job: JobId, version: nat) {
    match op
    case CompleteJob(j, _, _, v) => j == job && v == version
    case RecordFailure(j, _, _, v) => j == job && v == version
    case _ => false
  }

  lemma ReportAges(s: Store, op: Op, job: JobId, version: nat)
    requires Reports(op, job, version) && Accepted(s, op)
    ensures job in Apply(s, op).jobs && Apply(s, op).jobs[job].version == version + 1
  {
  }

  /** Every claim of a job is reported on at most once, by whichever sweeper: of all reports that carry one
      version of the job at most one is accepted. */
  lemma {:induction false} OneReportPerClaim(s: Store, ops: seq<Op>, job: JobId, version: nat, j: nat, k: nat)
    requires Init(s) && IsRun(s, ops) && j < k < |ops|
    requires Reports(ops[j], job, version) && Reports(ops[k], job, version)
    ensures !(Accepted(At(s, ops, j), ops[j]) && Accepted(At(s, ops, k), ops[k]))
  {
    AtNext(s, ops, j);
    if Accepted(At(s, ops, j), ops[j]) {
      ReportAges(At(s, ops, j), ops[j], job, version);
      AgedAlways(s, ops, job, j + 1, k);
    }
  }

  // ---------------------------------------------------------------- retries

  /** A job waits or is held only while it has retries left, and has a lease only while it is held. */
  predicate Sound(j: Job) {
    && j.retries <= MAX_RETRIES
    && (j.status == Waiting || j.status == Held ==> j.retries < MAX_RETRIES)
    && (j.lease.Some? ==> j.status == Held)
  }

  lemma SoundStep(s: Store, op: Op, job: JobId)
    requires Inv(s) && Enabled(s, op) && (job in s.jobs ==> Sound(s.jobs[job]))
    ensures job in Apply(s, op).jobs ==> Sound(Apply(s, op).jobs[job])
  {
  }

  /** No job is retried more often than the maximum, and one with a live lease is in progress, whoever sweeps. */
  lemma {:induction false} JobsAreSound(s: Store, ops: seq<Op>, job: JobId, k: nat)
    requires Init(s) && IsRun(s, ops) && k <= |ops|
    ensures job in At(s, ops, k).jobs ==> Sound(At(s, ops, k).jobs[job])
  {
    if k > 0 {
      JobsAreSound(s, ops, job, k - 1);
      InvAlways(s, ops, k - 1);
      EnabledAt(s, ops, k - 1);
      AtNext(s, ops, k - 1);
      SoundStep(At(s, ops, k - 1), ops[k - 1], job);
    }
  }

  // ---------------------------------------------------------------- a gap

  /** A job in progress whose lease has run out: its sweeper crashed, or was too slow. */
  predicate Abandoned(s: Store, job: JobId) {
    job in s.jobs && s.jobs[job].status == Held && s.jobs[job].leaseUntil.Some? && s.jobs[job].leaseUntil.value <= s.now
  }

  predicate Cancels(op: Op, job: JobId) { op.CancelJob? && op.job == job }

  lemma AbandonedStep(s: Store, op: Op, job: JobId)
    requires Inv(s) && Enabled(s, op) && Abandoned(s, job) && !Cancels(op, job)
    ensures Abandoned(Apply(s, op), job)
    ensures op.ClaimJob? && op.job == job ==> !Accepted(s, op)
    ensures op.CompleteJob? && op.job == job ==> !Accepted(s, op)
    ensures op.RecordFailure? && op.job == job ==> !Accepted(s, op)
  {
    assert s.jobs != map[];
  }

  /** A job whose lease ran out is lost: no sweeper ever claims it again, and no report on it is accepted, so the
      blob's cleanup is never recorded. Only the holder itself could still cancel it. */
  lemma {:induction false} AbandonedJobIsLost(s: Store, ops: seq<Op>, job: JobId, j: nat, k: nat)
    requires Init(s) && IsRun(s, ops) && j <= k < |ops|
    requires Abandoned(At(s, ops, j), job)
    requires forall i | j <= i < |ops| :: !Cancels(ops[i], job)
    ensures Abandoned(At(s, ops, k), job)
    ensures ops[k].ClaimJob? && ops[k].job == job ==> !Accepted(At(s, ops, k), ops[k])
    ensures ops[k].CompleteJob? && ops[k].job == job ==> !Accepted(At(s, ops, k), ops[k])
    ensures ops[k].RecordFailure? && ops[k].job == job ==> !Accepted(At(s, ops, k), ops[k])
    decreases k
  {
    if j < k {
      AbandonedJobIsLost(s, ops, job, j, k - 1);
      InvAlways(s, ops, k - 1);
      EnabledAt(s, ops, k - 1);
      AtNext(s, ops, k - 1);
      AbandonedStep(At(s, ops, k - 1), ops[k - 1], job);
    }
    InvAlways(s, ops, k);
    EnabledAt(s, ops, k);
    AbandonedStep(At(s, ops, k), ops[k], job);
  }

  // ---------------------------------------------------------------- rejection

  /** There is no such record, or it is withdrawn. */
  predicate WithdrawnIn(m: map<Id, Visibility>, id: Id) { id in m ==> m[id] == Withdrawn }

  /** A rejected run has withdrawn every deliverable it names, and nothing of it is published afterwards. */
  lemma {:induction false} RejectionWithdraws(s: Store, ops: seq<Op>, j: nat, k: nat)
    requires Init(s) && IsRun(s, ops) && j < k <= |ops|
    requires ops[j] == Reject && Accepted(At(s, ops, j), ops[j])
    ensures At(s, ops, j + 1).run.gate.status == Rejected && At(s, ops, k).run.status == Failed
    ensures forall a | a in Deliverables(At(s, ops, j).run) ::
              WithdrawnIn(At(s, ops, j + 1).artifacts, a) && WithdrawnIn(At(s, ops, j + 1).files, a)
    ensures NothingPublished(At(s, ops, k))
  {
    AtNext(s, ops, j);
    EvolvesAlways(s, ops, j + 1, k);
    InvAlways(s, ops, k);
  }
}
