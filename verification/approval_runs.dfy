/** Statements about whole runs of the approval protocol: any number of approvers, reconcilers and
    sweepers, interleaved in any way. */
module ApprovalRuns {
  import opened Options
  import opened ApprovalProtocol

  function Exec(s: Store, ops: seq<Op>): Store {
    if ops == [] then s else Apply(Exec(s, ops[..|ops| - 1]), ops[|ops| - 1])
  }

  /** Every operation was issued in a state that enables it. */
  predicate IsRun(s: Store, ops: seq<Op>) {
    ops == [] ||
    var n := |ops| - 1;
    IsRun(s, ops[..n]) && Enabled(Exec(s, ops[..n]), ops[n])
  }

  function At(s: Store, ops: seq<Op>, k: nat): Store
    requires k <= |ops|
  {
    Exec(s, ops[..k])
  }

  lemma AtNext(s: Store, ops: seq<Op>, k: nat)
    requires k < |ops|
    ensures At(s, ops, k + 1) == Apply(At(s, ops, k), ops[k])
  {
    assert ops[..k + 1][..k] == ops[..k];
  }

  lemma IsRunExtends(s: Store, ops: seq<Op>, op: Op)
    requires IsRun(s, ops) && Enabled(Exec(s, ops), op)
    ensures IsRun(s, ops + [op]) && Exec(s, ops + [op]) == Apply(Exec(s, ops), op)
  {
    assert (ops + [op])[..|ops|] == ops;
  }

  lemma {:induction false} EnabledAt(s: Store, ops: seq<Op>, k: nat)
    requires IsRun(s, ops) && k < |ops|
    ensures IsRun(s, ops[..k]) && Enabled(At(s, ops, k), ops[k])
  {
    if k < |ops| - 1 {
      var front := ops[..|ops| - 1];
      EnabledAt(s, front, k);
      assert front[..k] == ops[..k];
    }
  }

  lemma {:induction false} InvAlways(s: Store, ops: seq<Op>, k: nat)
    requires Init(s) && IsRun(s, ops) && k <= |ops|
    ensures Inv(At(s, ops, k))
  {
    if k == 0 {
      InitEstablishes(s, {});
    } else {
      InvAlways(s, ops, k - 1);
      EnabledAt(s, ops, k - 1);
      AtNext(s, ops, k - 1);
      InvStep(At(s, ops, k - 1), ops[k - 1]);
    }
  }

  // ---------------------------------------------------------------- safety of publication

  /** At every point of a run, both records of everything due are published exactly when the run is COMPLETED
      with its gate approved, if and only if no bundler writes an artifact record or deletes a file of a
      completed run and no commit falls short. */
  lemma {:induction false} PublicationIsExact(s: Store, ops: seq<Op>, spared: set<Id>)
    requires Init(s) && IsRun(s, ops)
    ensures (forall k | 0 <= k <= |ops| :: PublishedIffCompleted(At(s, ops, k), spared))
       <==> (forall k | 0 <= k < |ops| :: !Spoils(At(s, ops, k), ops[k], spared))
  {
    if forall k | 0 <= k < |ops| :: !Spoils(At(s, ops, k), ops[k], spared) {
      forall k | 0 <= k <= |ops| ensures PublishedIffCompleted(At(s, ops, k), spared) {
        UnspoiledKeepsPublication(s, ops, k, spared);
      }
    } else {
      var k :| 0 <= k < |ops| && Spoils(At(s, ops, k), ops[k], spared);
      EnabledAt(s, ops, k);
      AtNext(s, ops, k);
      InvAlways(s, ops, k);
      if PublishedIffCompleted(At(s, ops, k), spared) {
        PublishedStep(At(s, ops, k), ops[k], spared);
        assert !PublishedIffCompleted(At(s, ops, k + 1), spared);
      }
    }
  }

  lemma {:induction false} UnspoiledKeepsPublication(s: Store, ops: seq<Op>, k: nat, spared: set<Id>)
    requires Init(s) && IsRun(s, ops) && k <= |ops|
    requires forall i | 0 <= i < |ops| :: !Spoils(At(s, ops, i), ops[i], spared)
    ensures PublishedIffCompleted(At(s, ops, k), spared)
  {
    if k == 0 {
      InitEstablishes(s, spared);
    } else {
      UnspoiledKeepsPublication(s, ops, k - 1, spared);
      EnabledAt(s, ops, k - 1);
      AtNext(s, ops, k - 1);
      InvAlways(s, ops, k - 1);
      PublishedStep(At(s, ops, k - 1), ops[k - 1], spared);
    }
  }

  predicate NeverNamed(s: Store, ops: seq<Op>, m: Id) {
    m !in s.run.outputs && m !in s.bundle && forall i | 0 <= i < |ops| && ops[i].Commit? :: m !in ops[i].outputs
  }

  /** A manifest that is a plain file and is never named as an output, as the bundler's is, keeps its artifact
      record unpublished in every run: completed runs are published up to that record at best. */
  lemma {:induction false} FileManifestIsNeverPublished(s: Store, ops: seq<Op>, m: Id, k: nat)
    requires Init(s) && IsRun(s, ops) && k <= |ops| && IsFileId(m) && NeverNamed(s, ops, m)
    ensures !IsPublished(At(s, ops, k).artifacts, m) && m !in At(s, ops, k).run.outputs
              && At(s, ops, k).bundle == s.bundle
    ensures m == s.bundleManifest && At(s, ops, k).run.status == Completed ==> !PublishedIffCompleted(At(s, ops, k), {})
  {
    if k > 0 {
      FileManifestIsNeverPublished(s, ops, m, k - 1);
      AtNext(s, ops, k - 1);
      FileManifestStep(At(s, ops, k - 1), ops[k - 1], m);
    }
    BundleIsFixed(s, ops, k);
  }

  lemma FileManifestStep(s: Store, op: Op, m: Id)
    requires IsFileId(m) && m !in s.run.outputs && m !in s.bundle && (op.Commit? ==> m !in op.outputs)
    requires !IsPublished(s.artifacts, m)
    ensures m !in Apply(s, op).run.outputs && !IsPublished(Apply(s, op).artifacts, m)
  {
  }

  lemma {:induction false} BundleIsFixed(s: Store, ops: seq<Op>, k: nat)
    requires k <= |ops|
    ensures At(s, ops, k).bundle == s.bundle && At(s, ops, k).bundleManifest == s.bundleManifest
  {
    if k > 0 {
      BundleIsFixed(s, ops, k - 1);
      AtNext(s, ops, k - 1);
    }
  }

  // ---------------------------------------------------------------- what never goes back

  /** What later states owe to earlier ones. */
  predicate Evolves(s: Store, t: Store) {
    && (s.run.status == Completed ==> t.run.status == Completed)
    && (s.run.status == Failed ==> t.run.status == Failed)
    && s.now <= t.now
    && s.jobs.Keys <= t.jobs.Keys
    && (t.run.status != Failed ==> s.blobs <= t.blobs)
    && s.claims <= t.claims
    && s.commits <= t.commits
    && s.bundle == t.bundle
    && s.bundleManifest == t.bundleManifest
  }

  lemma EvolvesStep(s: Store, op: Op)
    requires Inv(s) && Enabled(s, op)
    ensures Evolves(s, Apply(s, op))
  {
  }

  lemma EvolvesTransitive(s: Store, t: Store, u: Store)
    requires Evolves(s, t) && Evolves(t, u)
    ensures Evolves(s, u)
  {
  }

  /** COMPLETED and FAILED are never left, clocks, jobs, claims and commits only grow, and no blob
      disappears from a run that has not failed. */
  lemma {:induction false} EvolvesAlways(s: Store, ops: seq<Op>, j: nat, k: nat)
    requires Init(s) && IsRun(s, ops) && j <= k <= |ops|
    ensures Evolves(At(s, ops, j), At(s, ops, k))
    decreases k
  {
    if j < k {
      EvolvesAlways(s, ops, j, k - 1);
      InvAlways(s, ops, k - 1);
      EnabledAt(s, ops, k - 1);
      AtNext(s, ops, k - 1);
      EvolvesStep(At(s, ops, k - 1), ops[k - 1]);
      EvolvesTransitive(At(s, ops, j), At(s, ops, k - 1), At(s, ops, k));
    }
  }

  lemma HistoryEvolves(s: Store, before: seq<Op>, after: seq<Op>)
    requires Init(s) && IsRun(s, after) && before <= after
    ensures Evolves(Exec(s, before), Exec(s, after))
  {
    assert after[..|before|] == before && after[..|after|] == after;
    EvolvesAlways(s, after, |before|, |after|);
  }

  // ---------------------------------------------------------------- one publisher

  /** Over a whole run at most one commit is accepted: two accepted commits are the same step. */
  lemma AtMostOneCommit(s: Store, ops: seq<Op>, j: nat, k: nat)
    requires Init(s) && IsRun(s, ops) && j < |ops| && k < |ops|
    requires ops[j].Commit? && Accepted(At(s, ops, j), ops[j])
    requires ops[k].Commit? && Accepted(At(s, ops, k), ops[k])
    ensures j == k
  {
    var a, b := if j < k then j else k, if j < k then k else j;
    if a < b {
      InvAlways(s, ops, a);
      AtNext(s, ops, a);
      EvolvesAlways(s, ops, a + 1, b);
      assert false;
    }
  }

  /** An accepted commit carries the token of the most recent accepted claim. */
  lemma {:induction false} CommitIsByLastClaimant(s: Store, ops: seq<Op>, k: nat)
    requires Init(s) && IsRun(s, ops) && k < |ops|
    requires ops[k].Commit? && Accepted(At(s, ops, k), ops[k])
    ensures LastClaim(At(s, ops, k), ops[k].token)
  {
    InvAlways(s, ops, k);
  }

  /** A claimant whose claim was followed by another accepted claim never publishes afterwards. */
  lemma SupersededNeverPublishes(s: Store, ops: seq<Op>, token: Token, j: nat, k: nat)
    requires Init(s) && IsRun(s, ops) && j <= k < |ops|
    requires At(s, ops, j).claims != [] && !LastClaim(At(s, ops, j), token)
    requires forall i | j <= i < k && ops[i].Claim? :: ops[i].token != token
    requires ops[k].Commit? && ops[k].token == token
    ensures !Accepted(At(s, ops, k), ops[k])
  {
    StaysSuperseded(s, ops, token, j, k);
    if Accepted(At(s, ops, k), ops[k]) { CommitIsByLastClaimant(s, ops, k); }
  }

  lemma SupersededStep(s: Store, op: Op, token: Token)
    requires s.claims != [] && !LastClaim(s, token)
    requires op.Claim? ==> op.token != token
    ensures Apply(s, op).claims != [] && !LastClaim(Apply(s, op), token)
  {
  }

  lemma {:induction false} StaysSuperseded(s: Store, ops: seq<Op>, token: Token, j: nat, k: nat)
    requires Init(s) && IsRun(s, ops) && j <= k <= |ops|
    requires At(s, ops, j).claims != [] && !LastClaim(At(s, ops, j), token)
    requires forall i | j <= i < k && ops[i].Claim? :: ops[i].token != token
    ensures At(s, ops, k).claims != [] && !LastClaim(At(s, ops, k), token)
    decreases k
  {
    if j < k {
      StaysSuperseded(s, ops, token, j, k - 1);
      AtNext(s, ops, k - 1);
      SupersededStep(At(s, ops, k - 1), ops[k - 1], token);
    }
  }

  // ---------------------------------------------------------------- the sweeper

  /** When a sweeper removes a blob, the run has failed, and from then on the artifact is never
      published: the check and the deletion need no common lock. */
  lemma DeletedBlobIsNeverPublished(s: Store, ops: seq<Op>, j: nat, k: nat)
    requires Init(s) && IsRun(s, ops) && j < |ops| && ops[j].DeleteBlob? && j <= k <= |ops|
    ensures At(s, ops, k).run.status == Failed
    ensures !TargetPublished(At(s, ops, k), ops[j].job.artifact)
  {
    InvAlways(s, ops, j);
    EnabledAt(s, ops, j);
    assert At(s, ops, j).jobs != map[];
    EvolvesAlways(s, ops, j, k);
    InvAlways(s, ops, k);
  }

  /** Every published artifact has its blob, and cleanup jobs exist only for a failed run. */
  lemma PublishedHasBlob(s: Store, ops: seq<Op>, k: nat)
    requires Init(s) && IsRun(s, ops) && k <= |ops|
    ensures forall a | IsPublished(At(s, ops, k).artifacts, a) :: a in At(s, ops, k).blobs
    ensures At(s, ops, k).jobs != map[] ==> At(s, ops, k).run.status == Failed
  {
    InvAlways(s, ops, k);
    var t := At(s, ops, k);
    forall a | IsPublished(t.artifacts, a) ensures a in t.blobs {
      assert a in t.artifacts.Keys;
    }
  }

  // ---------------------------------------------------------------- progress of expired leases

  predicate Recoverable(run: Run, now: int) {
    && run.status == Running
    && run.gate.status in {Pending, Approving}
    && (run.gate.leaseUntil.None? || now >= run.gate.leaseUntil.value || run.gate.status == Pending)
  }

  /** The scanner's criterion. */
  predicate Stalled(run: Run, now: int) {
    && run.status == Running
    && if run.gate.status == Approving then
         if run.gate.leaseUntil.Some? && run.gate.leaseUntil.value <= now then true
         else if run.uncertainSince.Some? then run.uncertainSince.value + UNCERTAIN_GRACE_SECONDS <= now
         else run.commit == Uncertain
       else run.commit == Uncertain
  }

  /** The reconciler's criterion. */
  predicate LeaseActive(run: Run, now: int, force: bool) {
    && !force
    && run.gate.status == Approving
    && run.gate.token.Some?
    && if run.gate.leaseUntil.Some? then run.gate.leaseUntil.value > now
       else if run.uncertainSince.Some? then run.uncertainSince.value + UNCERTAIN_GRACE_SECONDS > now
       else run.commit != Uncertain
  }

  /** No reachable running approval is stuck: it is open to a new approver exactly when its lease
      has expired, and then the scanner lists it and the reconciler does not answer IN_PROGRESS. */
  lemma ExpiredApprovalIsRecoverable(s: Store, ops: seq<Op>, k: nat)
    requires Init(s) && IsRun(s, ops) && k <= |ops|
    ensures var t := At(s, ops, k);
            t.run.status == Running ==>
              && (Recoverable(t.run, t.now) <==> !LeaseActive(t.run, t.now, false))
              && (Recoverable(t.run, t.now) ==> Stalled(t.run, t.now))
  {
    InvAlways(s, ops, k);
  }

  /** The commit has been marked uncertain and the grace period is over (or was never started). */
  predicate UncertaintyRipe(run: Run, now: int) {
    if run.uncertainSince.Some? then run.uncertainSince.value + UNCERTAIN_GRACE_SECONDS <= now
    else run.commit == Uncertain
  }

  /** The scanner also lists a run whose commit has been uncertain for the grace period, but while its
      lease is live the reconciler leaves it alone: the two criteria differ in exactly that case. */
  lemma ScannerAndReconcilerDiffer(s: Store, ops: seq<Op>, k: nat)
    requires Init(s) && IsRun(s, ops) && k <= |ops|
    ensures var t := At(s, ops, k);
            t.run.status == Running ==>
              (Stalled(t.run, t.now) && LeaseActive(t.run, t.now, false)
               <==> !Recoverable(t.run, t.now) && UncertaintyRipe(t.run, t.now))
  {
    InvAlways(s, ops, k);
  }
}
