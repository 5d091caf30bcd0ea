/** The durable state behind one gated Run, the atomic store operations that act on it, and
    what every sequence of those operations keeps.

    Each constructor of `Op` is one indivisible step of the store (one lock or transaction).
    Approvers, reconcilers and sweepers are programs over these steps, so "any interleaving of
    any number of them" is "any sequence of enabled operations". */
module ApprovalProtocol {
  import Numerals
  import opened Options

  type Id = string
  type Token = nat

  datatype RunStatus = AwaitingApproval | Running | Completed | Failed
  datatype GateStatus = Pending | Approving | Approved | Rejected | GateFailed
  datatype CommitStatus = Unknown | Uncertain | Committed | Aborted

  /** The visibility of an artifact record and the publication status of a file record.
      `Retired` is "purged" on an artifact and "failed" on a file. */
  datatype Visibility = PendingApproval | Published | Withdrawn | Cleaning | Retired

  datatype Gate = Gate(status: GateStatus, token: Option<Token>, leaseUntil: Option<int>)

  datatype Run = Run(
    status: RunStatus,
    gate: Gate,
    commit: CommitStatus,
    uncertainSince: Option<int>,
    outputs: seq<Id>,
    manifest: Option<Id>,
    version: nat)

  datatype JobId = JobId(artifact: Id, stagingVersion: nat)
  datatype JobStatus = Waiting | Held | Done | Cancelled | GivenUp

  datatype Job = Job(
    status: JobStatus,
    owner: Option<Token>,
    lease: Option<Token>,
    leaseUntil: Option<int>,
    nextRetryAt: Option<int>,
    retries: nat,
    version: nat)

  /** `bundle` and `bundleManifest` are the ids the bundler derives from the run id.
      `claims` and `commits` record the tokens of accepted claims and commits; no operation
      reads them. */
  datatype Store = Store(
    run: Run,
    bundle: seq<Id>,
    bundleManifest: Id,
    artifacts: map<Id, Visibility>,
    files: map<Id, Visibility>,
    blobs: set<Id>,
    jobs: map<JobId, Job>,
    now: int,
    claims: seq<Token>,
    commits: seq<Token>)

  datatype Op =
    | Elapse(seconds: nat)
    | StageFile(id: Id)
    | StageBlob(id: Id)
    | StageArtifact(id: Id)
    | DropFile(id: Id)
    | ShareOutputs
    | Claim(expected: RunStatus, token: Token)
    | Commit(token: Token, outputs: seq<Id>)
    | Rollback
    | MarkUncertain
    | Reject
    | ReconcileCompleted
    | ReconcileFailed(cleanups: seq<JobId>)
    | ClaimJob(job: JobId, worker: Token, lease: Token)
    | CancelJob(job: JobId)
    | DeleteBlob(job: JobId, removed: bool)
    | CompleteJob(job: JobId, worker: Token, lease: Token, version: nat)
    | RecordFailure(job: JobId, worker: Token, lease: Token, version: nat)

  const LEASE_SECONDS: int := 60
  const UNCERTAIN_GRACE_SECONDS: int := 30
  const MAX_RETRIES: nat := 5

  // ---------------------------------------------------------------- helpers

  /** Order-preserving removal of repeats. */
  function Dedup(ids: seq<Id>): (r: seq<Id>)
    ensures forall a :: a in r <==> a in ids
  {
    if ids == [] then []
    else
      var n := |ids| - 1;
      var front := Dedup(ids[..n]);
      assert ids == ids[..n] + [ids[n]];
      if ids[n] in front then front else front + [ids[n]]
  }

  /** Each id stays once, where it first stands: what comes before another in the result first stood before it. */
  lemma {:induction false} DedupKeepsFirsts(ids: seq<Id>)
    ensures forall i, j :: 0 <= i < j < |Dedup(ids)| ==> Dedup(ids)[i] != Dedup(ids)[j]
    ensures forall i, j, k :: 0 <= i < j < |Dedup(ids)| && 0 <= k < |ids| && ids[k] == Dedup(ids)[j] ==>
              Dedup(ids)[i] in ids[..k]
  {
    if ids != [] {
      var n := |ids| - 1;
      var front := Dedup(ids[..n]);
      DedupKeepsFirsts(ids[..n]);
      assert ids == ids[..n] + [ids[n]];
      forall i, j, k | 0 <= i < j < |Dedup(ids)| && 0 <= k < |ids| && ids[k] == Dedup(ids)[j]
        ensures Dedup(ids)[i] in ids[..k]
      {
        assert Dedup(ids)[i] == front[i] && front[i] in ids[..n];
        if k < n {
          assert ids[..n][k] in ids[..n] && ids[..n][..k] == ids[..k];
        }
      }
    }
  }

  function AsSet(ids: seq<Id>): set<Id> { set a | a in ids }

  predicate IsFileId(id: Id) { "file_" <= id }

  predicate IsArtId(id: Id) { "art_" <= id }

  /** The file record that mirrors an action artifact. */
  function MirrorFile(id: Id): Id
    requires IsArtId(id)
  {
    "file_art_" + id[4..]
  }

  function Mirrors(ids: seq<Id>): set<Id> { set a | a in ids && IsArtId(a) :: MirrorFile(a) }

  function ManifestList(run: Run): seq<Id> {
    if run.manifest.Some? then [run.manifest.value] else []
  }

  function Deliverables(run: Run): seq<Id> { Dedup(run.outputs + ManifestList(run)) }

  /** What a reconciler takes the run to consist of. */
  function ReconcileIds(run: Run): seq<Id> {
    run.outputs + if run.manifest.Some? && run.manifest.value !in run.outputs then [run.manifest.value] else []
  }

  /** The cleanup items of an abort: these ids at this version of the run. */
  function CleanupsFor(ids: seq<Id>, version: nat): seq<JobId> {
    seq(|ids|, i requires 0 <= i < |ids| => JobId(ids[i], version))
  }

  function CommitOutputs(run: Run, outputs: seq<Id>): seq<Id> { Dedup(run.outputs + outputs) }

  /** The artifact records a commit publishes. A manifest that is only a file is not among them. */
  function CommitTargets(run: Run, outputs: seq<Id>): seq<Id> {
    var d := CommitOutputs(run, outputs);
    if run.manifest.Some? && run.manifest.value !in d && !IsFileId(run.manifest.value)
    then d + [run.manifest.value] else d
  }

  /** The file records a commit publishes. */
  function CommitFiles(run: Run, outputs: seq<Id>): set<Id> {
    var targets := CommitTargets(run, outputs);
    AsSet(targets)
    + Mirrors(targets)
    + AsSet(ManifestList(run))
  }

  function Overwrite(m: map<Id, Visibility>, ids: set<Id>, v: Visibility): map<Id, Visibility> {
    map a | a in m :: if a in ids then v else m[a]
  }

  /** One step of an overwriting loop. */
  function Stamp(m: map<Id, Visibility>, id: Id, v: Visibility): map<Id, Visibility> {
    if id in m then m[id := v] else m
  }

  lemma OverwriteGrows(m: map<Id, Visibility>, ids: set<Id>, id: Id, v: Visibility)
    ensures Stamp(Overwrite(m, ids, v), id, v) == Overwrite(m, ids + {id}, v)
  {
  }

  lemma PrefixGrows(ids: seq<Id>, i: nat)
    requires i < |ids|
    ensures AsSet(ids[..i + 1]) == AsSet(ids[..i]) + {ids[i]}
    ensures Mirrors(ids[..i + 1]) ==
            Mirrors(ids[..i]) + if IsArtId(ids[i]) then {MirrorFile(ids[i])} else {}
  {
    assert ids[..i + 1] == ids[..i] + [ids[i]];
  }

  function Flip(m: map<Id, Visibility>, id: Id, from: Visibility, to: Visibility): map<Id, Visibility> {
    if id in m && m[id] == from then m[id := to] else m
  }

  /** Moves a record to `Cleaning` unless it is published. */
  function Block(m: map<Id, Visibility>, id: Id): map<Id, Visibility> {
    if id in m && m[id] != Published then m[id := Cleaning] else m
  }

  predicate IsPublished(m: map<Id, Visibility>, id: Id) { id in m && m[id] == Published }

  predicate AllPublished(s: Store) {
    forall a | a in Deliverables(s.run) :: IsPublished(s.artifacts, a) && IsPublished(s.files, a)
  }

  // ---------------------------------------------------------------- guards

  predicate CommitAccepted(s: Store, token: Token, outputs: seq<Id>) {
    && s.run.status == Running
    && s.run.gate.status == Approving
    && s.run.gate.token == Some(token)
    && forall a | a in CommitTargets(s.run, outputs) ::
         a in s.artifacts && s.artifacts[a] == PendingApproval
  }

  predicate ReconcileRepeats(s: Store, target: RunStatus, commit: CommitStatus) {
    s.run.status == target && s.run.commit == commit
  }

  predicate CompletionApplies(s: Store) { s.run.status == Running && AllPublished(s) }

  predicate AbortApplies(s: Store) {
    s.run.status == Running && !(Deliverables(s.run) != [] && AllPublished(s))
  }

  predicate JobClaimable(s: Store, job: JobId, worker: Token) {
    && job in s.jobs
    && var j := s.jobs[job];
    && j.status == Waiting
    && (j.leaseUntil.Some? && j.leaseUntil.value > s.now ==> j.owner == Some(worker))
    && (j.nextRetryAt.Some? ==> j.nextRetryAt.value <= s.now)
  }

  predicate TargetPublished(s: Store, id: Id) {
    IsPublished(s.artifacts, id) || IsPublished(s.files, id)
  }

  predicate JobHeld(s: Store, job: JobId, worker: Token, lease: Token, version: nat) {
    && job in s.jobs
    && var j := s.jobs[job];
    && j.owner == Some(worker)
    && j.lease == Some(lease)
    && j.version == version
    && j.leaseUntil.Some?
    && j.leaseUntil.value > s.now
  }

  // ---------------------------------------------------------------- effects

  function Claimed(s: Store, token: Token): Store {
    s.(run := s.run.(
         status := Running,
         version := s.run.version + 1,
         gate := Gate(Approving, Some(token), Some(s.now + LEASE_SECONDS))),
       claims := s.claims + [token])
  }

  function Publish(s: Store, token: Token, outputs: seq<Id>): Store {
    s.(run := s.run.(
         status := Completed,
         gate := s.run.gate.(status := Approved),
         outputs := CommitOutputs(s.run, outputs),
         version := s.run.version + 1),
       artifacts := Overwrite(s.artifacts, AsSet(CommitTargets(s.run, outputs)), Published),
       files := Overwrite(s.files, CommitFiles(s.run, outputs), Published),
       commits := s.commits + [token])
  }

  function RejectGate(s: Store): Store {
    s.(run := s.run.(
         status := Failed,
         gate := s.run.gate.(status := Rejected),
         version := s.run.version + 1),
       artifacts := Overwrite(s.artifacts, AsSet(Deliverables(s.run)), Withdrawn),
       files := Overwrite(s.files, AsSet(Deliverables(s.run)), Withdrawn))
  }

  function Settle(run: Run, target: RunStatus, commit: CommitStatus, gate: GateStatus): Run {
    run.(status := target,
         commit := commit,
         uncertainSince := None,
         version := run.version + 1,
         gate := Gate(gate, None, None))
  }

  const FRESH_JOB := Job(Waiting, None, None, None, None, 0, 1)

  function Enqueue(jobs: map<JobId, Job>, cleanups: seq<JobId>): (r: map<JobId, Job>)
    ensures r.Keys == jobs.Keys + set j | j in cleanups
  {
    jobs + map j | j in cleanups :: FRESH_JOB
  }

  function Backoff(retries: nat): nat {
    if retries >= 9 then 300 else if Numerals.PowerOfTwo(retries) < 300 then Numerals.PowerOfTwo(retries) else 300
  }

  /** The delay doubles with every retry and never exceeds five minutes. */
  lemma BackoffDoubles(retries: nat)
    ensures Backoff(0) == 1 && Backoff(retries) <= 300
    ensures Backoff(retries + 1) == if 2 * Backoff(retries) < 300 then 2 * Backoff(retries) else 300
  {
    assert Numerals.PowerOfTwo(8) == 256 by {
      assert Numerals.PowerOfTwo(4) == 16;
    }
    PowersRise(retries, 8);
  }

  lemma {:induction false} PowersRise(k: nat, n: nat)
    ensures k <= n ==> Numerals.PowerOfTwo(k) <= Numerals.PowerOfTwo(n)
  {
    if k < n { PowersRise(k, n - 1); }
  }

  function HoldJob(s: Store, job: JobId, worker: Token, lease: Token): Store
    requires job in s.jobs
  {
    var j := s.jobs[job];
    if TargetPublished(s, job.artifact) then
      s.(jobs := s.jobs[job := j.(status := Cancelled)])
    else
      s.(jobs := s.jobs[job := j.(status := Held, owner := Some(worker), lease := Some(lease),
                                  leaseUntil := Some(s.now + LEASE_SECONDS), version := j.version + 1)],
         artifacts := Block(s.artifacts, job.artifact),
         files := Block(s.files, job.artifact))
  }

  function ReleasedJob(j: Job, status: JobStatus): Job {
    j.(status := status, owner := None, lease := None, leaseUntil := None, version := j.version + 1)
  }

  function FailedJob(s: Store, j: Job): Job {
    var retries := j.retries + 1;
    var r := ReleasedJob(j, if retries < MAX_RETRIES then Waiting else GivenUp).(retries := retries);
    if retries < MAX_RETRIES then r.(nextRetryAt := Some(s.now + Backoff(retries))) else r
  }

  function Restore(s: Store, id: Id): Store {
    s.(artifacts := Flip(s.artifacts, id, Cleaning, PendingApproval),
       files := Flip(s.files, id, Cleaning, PendingApproval))
  }

  function Retire(s: Store, id: Id): Store {
    s.(artifacts := Flip(s.artifacts, id, Cleaning, Retired),
       files := Flip(s.files, id, Cleaning, Retired))
  }

  /** Whether the store accepts the operation. A refused one changes nothing, except that a cleanup claim
      of a published artifact cancels its job. */
  predicate Accepted(s: Store, op: Op) {
    match op
    case Claim(expected, _) => s.run.status == expected
    case Commit(token, outputs) => CommitAccepted(s, token, outputs)
    case Rollback => s.run.status == Running
    case MarkUncertain => s.run.status == Running
    case Reject => s.run.status == AwaitingApproval
    case ReconcileCompleted => ReconcileRepeats(s, Completed, Committed) || CompletionApplies(s)
    case ReconcileFailed(_) => ReconcileRepeats(s, Failed, Aborted) || AbortApplies(s)
    case ClaimJob(job, worker, _) => JobClaimable(s, job, worker) && !TargetPublished(s, job.artifact)
    case CancelJob(job) => job in s.jobs
    case DeleteBlob(_, removed) => removed
    case CompleteJob(job, worker, lease, version) => JobHeld(s, job, worker, lease, version)
    case RecordFailure(job, worker, lease, version) => JobHeld(s, job, worker, lease, version)
    case _ => true
  }

  function Apply(s: Store, op: Op): (t: Store)
    ensures t.bundle == s.bundle && t.bundleManifest == s.bundleManifest
  {
    match op
    case Elapse(seconds) => s.(now := s.now + seconds)
    case StageFile(id) => if id in s.files then s else s.(files := s.files[id := PendingApproval])
    case StageBlob(id) => s.(blobs := s.blobs + {id})
    case StageArtifact(id) => s.(artifacts := s.artifacts[id := PendingApproval])
    case DropFile(id) => s.(files := s.files - {id})
    case ShareOutputs => s.(run := s.run.(outputs := s.bundle, manifest := Some(s.bundleManifest)))
    case Claim(expected, token) => if s.run.status == expected then Claimed(s, token) else s
    case Commit(token, outputs) => if CommitAccepted(s, token, outputs) then Publish(s, token, outputs) else s
    case Rollback =>
      if s.run.status == Running
      then s.(run := s.run.(status := AwaitingApproval, version := s.run.version + 1,
          gate := Gate(Pending, None, None)))
      else s
    case MarkUncertain =>
      if s.run.status == Running
      then s.(run := s.run.(version := s.run.version + 1, commit := Uncertain, uncertainSince := Some(s.now)))
      else s
    case Reject => if s.run.status == AwaitingApproval then RejectGate(s) else s
    case ReconcileCompleted =>
      if !ReconcileRepeats(s, Completed, Committed) && CompletionApplies(s)
      then s.(run := Settle(s.run, Completed, Committed, Approved)) else s
    case ReconcileFailed(cleanups) =>
      if !ReconcileRepeats(s, Failed, Aborted) && AbortApplies(s)
      then s.(run := Settle(s.run, Failed, Aborted, GateFailed), jobs := Enqueue(s.jobs, cleanups)) else s
    case ClaimJob(job, worker, lease) =>
      if JobClaimable(s, job, worker) then HoldJob(s, job, worker, lease) else s
    case CancelJob(job) =>
      if job in s.jobs
      then Restore(s, job.artifact).(jobs := s.jobs[job := ReleasedJob(s.jobs[job], Cancelled)]) else s
    case DeleteBlob(job, removed) => if removed then s.(blobs := s.blobs - {job.artifact}) else s
    case CompleteJob(job, worker, lease, version) =>
      if JobHeld(s, job, worker, lease, version)
      then Retire(s, job.artifact).(jobs := s.jobs[job := ReleasedJob(s.jobs[job], Done)]) else s
    case RecordFailure(job, worker, lease, version) =>
      if JobHeld(s, job, worker, lease, version)
      then Restore(s, job.artifact).(jobs := s.jobs[job := FailedJob(s, s.jobs[job])]) else s
  }

  /** What the programs establish before they issue an operation, beyond the store's own guards:
      a claim expects an undecided run, a blob is stored before its artifact record, a commit names the whole bundle,
      completion is confirmed only for a run that has deliverables, and a blob is deleted only for a job that was
      claimed from the queue. The handlers in `ApprovalHandlers` discharge each of these. */
  predicate Enabled(s: Store, op: Op) {
    match op
    case Claim(expected, _) => expected == AwaitingApproval || expected == Running
    case StageArtifact(id) => id in s.blobs || s.run.status == Failed
    case Commit(_, outputs) => forall a | a in s.bundle :: a in outputs
    case ReconcileCompleted => s.run.status == Completed || Deliverables(s.run) != []
    case DeleteBlob(job, _) => job in s.jobs
    case _ => true
  }

  // ---------------------------------------------------------------- invariant

  predicate Init(s: Store) {
    && s.run.status == AwaitingApproval
    && s.run.gate == Gate(Pending, None, None)
    && s.run.commit == Unknown
    && (forall a | a in s.artifacts :: s.artifacts[a] == PendingApproval && a in s.blobs)
    && (forall a | a in s.files :: s.files[a] != Published)
    && s.jobs == map[]
    && s.claims == []
    && s.commits == []
  }

  predicate NothingPublished(s: Store) {
    && (forall a | a in s.artifacts :: s.artifacts[a] != Published)
    && (forall a | a in s.files :: s.files[a] != Published)
  }

  predicate LastClaim(s: Store, t: Token) { s.claims != [] && s.claims[|s.claims| - 1] == t }

  predicate Inv(s: Store) {
    && (s.run.status == Completed <==> s.run.gate.status == Approved)
    && (s.run.status == Completed ==> |s.commits| == 1 && LastClaim(s, s.commits[0]))
    && (s.run.status != Completed ==> s.commits == [] && NothingPublished(s))
    && (s.run.status != Failed ==> s.jobs == map[] && s.artifacts.Keys <= s.blobs)
    && s.run.commit != Committed
    && (s.run.gate.token.Some? ==> LastClaim(s, s.run.gate.token.value))
    && (s.run.status == Running ==>
          s.run.gate.status == Approving && s.run.gate.token.Some? && s.run.gate.leaseUntil.Some?)
  }

  // ---------------------------------------------------------------- publication

  /** What a completed run owes its readers: its outputs, its manifest, and the whole bundle. */
  function Due(s: Store): seq<Id> { s.run.outputs + ManifestList(s.run) + s.bundle + [s.bundleManifest] }

  /** Published exactly when decided: both records of everything due are published if the run is COMPLETED with
      its gate approved, and no record is published otherwise. The artifact records of `spared` do not matter. */
  predicate PublishedIffCompleted(s: Store, spared: set<Id>) {
    && (s.run.status == Completed ==>
          && s.run.gate.status == Approved
          && forall a | a in Due(s) :: IsPublished(s.files, a) && (a in spared || IsPublished(s.artifacts, a)))
    && (s.run.status != Completed ==> NothingPublished(s))
  }

  /** A bundler that lost its lease writes an artifact record after the run was completed. */
  predicate LateStage(s: Store, op: Op, spared: set<Id>) {
    op.StageArtifact? && s.run.status == Completed && op.id in Due(s) && op.id !in spared
  }

  /** A bundler that lost its lease fails, and deletes the file of a completed run among those it uploaded. */
  predicate LateDrop(s: Store, op: Op) {
    op.DropFile? && s.run.status == Completed && op.id in Due(s)
  }

  /** A commit of these outputs reaches both records of everything that will be due. */
  predicate CommitReachesAll(s: Store, outputs: seq<Id>, spared: set<Id>) {
    forall a | a in outputs + Due(s) ::
      a in s.files && a in CommitFiles(s.run, outputs) && (a in spared || a in CommitTargets(s.run, outputs))
  }

  predicate ShortCommit(s: Store, op: Op, spared: set<Id>) {
    op.Commit? && CommitAccepted(s, op.token, op.outputs) && !CommitReachesAll(s, op.outputs, spared)
  }

  predicate Spoils(s: Store, op: Op, spared: set<Id>) {
    LateStage(s, op, spared) || LateDrop(s, op) || ShortCommit(s, op, spared)
  }

  /** When the run names the bundle's manifest as its own, a commit reaches everything exactly when every file
      record is staged, and the manifest is spared, an output, or more than a plain file. */
  lemma CommitReachesAllIff(s: Store, outputs: seq<Id>, spared: set<Id>)
    requires s.run.manifest == Some(s.bundleManifest) && forall a | a in s.bundle :: a in outputs
    ensures CommitReachesAll(s, outputs, spared) <==>
              && (forall a | a in s.run.outputs + outputs :: a in s.files) && s.bundleManifest in s.files
              && (s.bundleManifest in s.run.outputs + outputs || !IsFileId(s.bundleManifest)
                  || s.bundleManifest in spared)
  {
    var m, d := s.bundleManifest, CommitOutputs(s.run, outputs);
    assert forall a | a in outputs + Due(s) :: a in d || a == m;
    assert m in outputs + Due(s);
    assert forall a | a in s.run.outputs + outputs :: a in outputs + Due(s);
    assert forall a | a in d :: a in CommitTargets(s.run, outputs) && a in CommitFiles(s.run, outputs);
    assert m in ManifestList(s.run) && m in CommitFiles(s.run, outputs);
  }

  lemma InitEstablishes(s: Store, spared: set<Id>)
    requires Init(s)
    ensures Inv(s) && PublishedIffCompleted(s, spared)
  {
  }

  /** A running run is never fully published, so only an abort can settle it. */
  lemma NothingToConfirm(s: Store)
    requires Inv(s) && s.run.status == Running
    ensures Deliverables(s.run) != [] ==> !CompletionApplies(s)
    ensures AbortApplies(s)
  {
    if Deliverables(s.run) != [] {
      assert !IsPublished(s.artifacts, Deliverables(s.run)[0]);
    }
  }

  lemma InvStep(s: Store, op: Op)
    requires Inv(s) && Enabled(s, op)
    ensures Inv(Apply(s, op))
  {
    if s.run.status != Failed { assert s.jobs.Keys == {}; }
    if s.run.status == Running { NothingToConfirm(s); }
  }

  /** An accepted commit publishes what it reaches. */
  lemma CommitPublishes(s: Store, token: Token, outputs: seq<Id>, spared: set<Id>)
    requires Inv(s) && CommitAccepted(s, token, outputs)
    ensures PublishedIffCompleted(Publish(s, token, outputs), spared) <==> CommitReachesAll(s, outputs, spared)
  {
    var t := Publish(s, token, outputs);
    assert forall a :: a in Due(t) <==> a in outputs + Due(s);
    assert forall a :: IsPublished(t.files, a) <==> a in s.files && a in CommitFiles(s.run, outputs);
    assert forall a :: IsPublished(t.artifacts, a) <==> a in CommitTargets(s.run, outputs);
  }

  /** The one step that separates publication from completion is a late record, a late deletion or a short commit. */
  lemma PublishedStep(s: Store, op: Op, spared: set<Id>)
    requires Inv(s) && PublishedIffCompleted(s, spared) && Enabled(s, op)
    ensures PublishedIffCompleted(Apply(s, op), spared) <==> !Spoils(s, op, spared)
  {
    InvStep(s, op);
    var t := Apply(s, op);
    if op.Commit? && CommitAccepted(s, op.token, op.outputs) {
      CommitPublishes(s, op.token, op.outputs, spared);
    } else if op.ShareOutputs? {
      assert forall a | a in Due(t) :: a in Due(s);
    } else {
      assert Due(t) == Due(s);
      if LateStage(s, op, spared) || LateDrop(s, op) { assert op.id in Due(t); }
    }
  }
}
