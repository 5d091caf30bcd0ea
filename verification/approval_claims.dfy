/** How long a claim lasts: what ends it, when its commit is refused, and what its lease means to others. */
module ApprovalClaims {
  import opened Options
  import opened ApprovalProtocol
  import opened ApprovalRuns

  predicate HoldsDecision(s: Store, token: Token) {
    s.run.status == Running && s.run.gate.status == Approving && s.run.gate.token == Some(token)
  }

  /** Another claim, a rollback or a settlement. */
  predicate Undoes(s: Store, op: Op) {
    && Accepted(s, op)
    && (op.Claim? || op.Rollback? || op.Commit? || op.Reject? || op.ReconcileCompleted? || op.ReconcileFailed?)
  }

  predicate TargetsPending(s: Store, outputs: seq<Id>) {
    forall a | a in CommitTargets(s.run, outputs) :: a in s.artifacts && s.artifacts[a] == PendingApproval
  }

  lemma HoldingStep(s: Store, op: Op, token: Token)
    requires Inv(s) && Enabled(s, op) && (op.Claim? ==> op.token != token)
    ensures HoldsDecision(Apply(s, op), token) <==> HoldsDecision(s, token) && !Undoes(s, op)
  {
    if s.run.status == Running { NothingToConfirm(s); }
  }

  lemma ClaimHolds(s: Store, op: Op)
    requires op.Claim? && Accepted(s, op)
    ensures HoldsDecision(Apply(s, op), op.token)
  {
  }

  lemma {:induction false} HoldsUntilUndone(s: Store, ops: seq<Op>, token: Token, j: nat, k: nat)
    requires Init(s) && IsRun(s, ops) && j < k <= |ops|
    requires ops[j].Claim? && ops[j].token == token && Accepted(At(s, ops, j), ops[j])
    requires forall i | j < i < k && ops[i].Claim? :: ops[i].token != token
    ensures HoldsDecision(At(s, ops, k), token) <==> forall i | j < i < k :: !Undoes(At(s, ops, i), ops[i])
    decreases k
  {
    hide *;
    AtNext(s, ops, k - 1);
    if j == k - 1 {
      ClaimHolds(At(s, ops, j), ops[j]);
    } else {
      HoldsUntilUndone(s, ops, token, j, k - 1);
      InvAlways(s, ops, k - 1);
      EnabledAt(s, ops, k - 1);
      HoldingStep(At(s, ops, k - 1), ops[k - 1], token);
    }
  }

  /** A claimant whose claim was accepted has its commit refused if and only if, in between, somebody claimed the
      run, rolled it back or settled it, or a target of the commit is not pending. Tokens are drawn afresh. */
  lemma CommitIsRefusedIffUndone(s: Store, ops: seq<Op>, j: nat, k: nat)
    requires Init(s) && IsRun(s, ops) && j < k < |ops|
    requires ops[j].Claim? && Accepted(At(s, ops, j), ops[j]) && ops[k].Commit? && ops[k].token == ops[j].token
    requires forall i | j < i < k && ops[i].Claim? :: ops[i].token != ops[j].token
    ensures !Accepted(At(s, ops, k), ops[k]) <==>
              (exists i | j < i < k :: Undoes(At(s, ops, i), ops[i])) || !TargetsPending(At(s, ops, k), ops[k].outputs)
  {
    HoldsUntilUndone(s, ops, ops[j].token, j, k);
  }

  // ---------------------------------------------------------------- leases between claims

  /** Some claim was accepted in between. */
  ghost predicate ClaimedBetween(s: Store, ops: seq<Op>, j: nat, k: nat)
    requires j <= k <= |ops|
  {
    exists i | j <= i < k :: ops[i].Claim? && Accepted(At(s, ops, i), ops[i])
  }

  lemma GateStep(s: Store, op: Op)
    requires Inv(s) && Enabled(s, op) && !(op.Claim? && Accepted(s, op))
    ensures Apply(s, op).run.status == Running ==> s.run.status == Running && Apply(s, op).run.gate == s.run.gate
  {
  }

  /** Without a claim in between a run that is RUNNING was RUNNING, under the same lease. */
  lemma {:induction false} GateStaysBetweenClaims(s: Store, ops: seq<Op>, j: nat, k: nat)
    requires Init(s) && IsRun(s, ops) && j <= k <= |ops| && !ClaimedBetween(s, ops, j, k)
    ensures At(s, ops, k).run.status == Running ==>
              At(s, ops, j).run.status == Running && At(s, ops, j).run.gate == At(s, ops, k).run.gate
    decreases k
  {
    if j < k {
      GateStaysBetweenClaims(s, ops, j, k - 1);
      InvAlways(s, ops, k - 1);
      EnabledAt(s, ops, k - 1);
      AtNext(s, ops, k - 1);
      GateStep(At(s, ops, k - 1), ops[k - 1]);
    }
  }

  lemma ClaimSetsLease(s: Store, op: Op)
    requires op.Claim? && Accepted(s, op)
    ensures IsLeaseUntil(Apply(s, op).run.gate, s.now + LEASE_SECONDS)
  {
  }

  predicate IsLeaseUntil(gate: Gate, until: int) {
    gate.status == Approving && gate.token.Some? && gate.leaseUntil == Some(until)
  }

  lemma RunningIsLater(s: Store, ops: seq<Op>, k: nat)
    requires Init(s) && k <= |ops| && At(s, ops, k).run.status == Running
    ensures k > 0
  {
  }

  /** The lease of a running approval is that of the last accepted claim. */
  lemma {:induction false} LeaseIsOfLastClaim(s: Store, ops: seq<Op>, k: nat) returns (i: nat)
    requires Init(s) && IsRun(s, ops) && k <= |ops| && At(s, ops, k).run.status == Running
    ensures i < k && ops[i].Claim? && Accepted(At(s, ops, i), ops[i]) && !ClaimedBetween(s, ops, i + 1, k)
    ensures IsLeaseUntil(At(s, ops, k).run.gate, At(s, ops, i).now + LEASE_SECONDS)
  {
    hide *;
    RunningIsLater(s, ops, k);
    AtNext(s, ops, k - 1);
    if ops[k - 1].Claim? && Accepted(At(s, ops, k - 1), ops[k - 1]) {
      i := k - 1;
      ClaimSetsLease(At(s, ops, i), ops[i]);
      NothingBetween(s, ops, k);
    } else {
      InvAlways(s, ops, k - 1);
      EnabledAt(s, ops, k - 1);
      GateStep(At(s, ops, k - 1), ops[k - 1]);
      i := LeaseIsOfLastClaim(s, ops, k - 1);
      NoneMoreBetween(s, ops, i + 1, k);
    }
  }

  lemma NothingBetween(s: Store, ops: seq<Op>, k: nat)
    requires k <= |ops|
    ensures !ClaimedBetween(s, ops, k, k)
  {
  }

  lemma NoneMoreBetween(s: Store, ops: seq<Op>, j: nat, k: nat)
    requires j < k <= |ops| && !ClaimedBetween(s, ops, j, k - 1)
    requires !(ops[k - 1].Claim? && Accepted(At(s, ops, k - 1), ops[k - 1]))
    ensures !ClaimedBetween(s, ops, j, k)
  {
  }

  /** A claim accepted since `j` is less than a lease old at `k`. */
  ghost predicate FreshlyClaimed(s: Store, ops: seq<Op>, j: nat, k: nat)
    requires j <= k <= |ops|
  {
    exists i | j <= i < k ::
      ops[i].Claim? && Accepted(At(s, ops, i), ops[i]) && At(s, ops, k).now < At(s, ops, i).now + LEASE_SECONDS
  }

  /** A running approval's lease is live exactly when it was claimed less than a lease ago. */
  lemma LeaseIsLiveIffFreshlyClaimed(s: Store, ops: seq<Op>, k: nat)
    requires Init(s) && IsRun(s, ops) && k <= |ops| && At(s, ops, k).run.status == Running
    ensures LeaseActive(At(s, ops, k).run, At(s, ops, k).now, false) <==> FreshlyClaimed(s, ops, 0, k)
  {
    var last := LeaseIsOfLastClaim(s, ops, k);
    forall i | 0 <= i < k && ops[i].Claim? && Accepted(At(s, ops, i), ops[i])
      ensures At(s, ops, i).now <= At(s, ops, last).now
    {
      EvolvesAlways(s, ops, i, last);
    }
  }

  /** Of a lease that had expired, as read at one point against the clock of a later one: it is live afterwards if
      and only if the run was claimed since the reading, less than a lease ago. */
  lemma ExpiredLeaseIsLiveIffClaimedSince(s: Store, ops: seq<Op>, readAt: nat, decidedAt: nat, k: nat)
    requires Init(s) && IsRun(s, ops) && readAt <= decidedAt <= k <= |ops|
    requires !LeaseActive(At(s, ops, readAt).run, At(s, ops, decidedAt).now, false)
    requires At(s, ops, k).run.status == Running
    ensures LeaseActive(At(s, ops, k).run, At(s, ops, k).now, false) <==> FreshlyClaimed(s, ops, readAt, k)
  {
    LeaseIsLiveIffFreshlyClaimed(s, ops, k);
    var last := LeaseIsOfLastClaim(s, ops, k);
    if last < readAt {
      GateStaysBetweenClaims(s, ops, readAt, k);
      EvolvesAlways(s, ops, decidedAt, k);
    }
  }
}
