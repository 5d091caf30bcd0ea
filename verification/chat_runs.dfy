/** Statements about whole runs of the chat protocol: any number of attempts, takeovers, retries and
    heartbeats under one key, in any interleaving and with crashes anywhere. */
module ChatRuns {
  import opened Options
  import opened ChatProtocol

  function Exec(c: Chat, ops: seq<Op>): Chat {
    if ops == [] then c else Apply(Exec(c, ops[..|ops| - 1]), ops[|ops| - 1])
  }

  /** Every operation was issued in a state that enables it. */
  predicate IsRun(c: Chat, ops: seq<Op>) {
    ops == [] ||
    var n := |ops| - 1;
    IsRun(c, ops[..n]) && Enabled(Exec(c, ops[..n]), ops[n])
  }

  function At(c: Chat, ops: seq<Op>, k: nat): Chat
    requires k <= |ops|
  {
    Exec(c, ops[..k])
  }

  lemma AtNext(c: Chat, ops: seq<Op>, k: nat)
    requires k < |ops|
    ensures At(c, ops, k + 1) == Apply(At(c, ops, k), ops[k])
  {
    assert ops[..k + 1][..k] == ops[..k];
  }

  lemma IsRunExtends(c: Chat, ops: seq<Op>, op: Op)
    requires IsRun(c, ops) && Enabled(Exec(c, ops), op)
    ensures IsRun(c, ops + [op]) && Exec(c, ops + [op]) == Apply(Exec(c, ops), op)
  {
    assert (ops + [op])[..|ops|] == ops;
  }

  lemma {:induction false} EnabledAt(c: Chat, ops: seq<Op>, k: nat)
    requires IsRun(c, ops) && k < |ops|
    ensures Enabled(At(c, ops, k), ops[k])
  {
    if k < |ops| - 1 {
      var front := ops[..|ops| - 1];
      EnabledAt(c, front, k);
      assert front[..k] == ops[..k];
    }
  }

  lemma {:induction false} InvAlways(c: Chat, ops: seq<Op>, k: nat)
    requires Init(c) && IsRun(c, ops) && k <= |ops|
    ensures Inv(At(c, ops, k))
  {
    if k > 0 {
      InvAlways(c, ops, k - 1);
      EnabledAt(c, ops, k - 1);
      AtNext(c, ops, k - 1);
      InvStep(At(c, ops, k - 1), ops[k - 1]);
    }
  }

  // ---------------------------------------------------------------- exactly once

  /** Whatever the attempts do, the key owns a prefix of one user message and one reply and at most
      one run, every recorded id is the derived one and names an existing object, and a COMPLETED
      record finds its user message. */
  lemma ExactlyOnceAlways(c: Chat, ops: seq<Op>, k: nat)
    requires Init(c) && IsRun(c, ops) && k <= |ops|
    ensures var t := At(c, ops, k);
            && t.messages <= [t.ids.user, t.ids.agent]
            && t.runs <= [t.ids.run]
            && (t.record.Some? ==> IdsGrounded(t, t.record.value))
            && (t.record.Some? && t.record.value.status == Completed ==> t.ids.user in t.messages)
  {
    InvAlways(c, ops, k);
  }

  // ---------------------------------------------------------------- what never goes back

  /** Objects stay, owners stay drawn, versions grow, sender and payload are fixed, and a COMPLETED
      record is frozen: not even a failure trap whose answer was lost reopens it. */
  predicate Evolves(c: Chat, d: Chat) {
    && c.ids == d.ids
    && c.messages <= d.messages
    && c.runs <= d.runs
    && c.now <= d.now
    && c.drawn <= d.drawn
    && (c.record.Some? ==>
          && d.record.Some?
          && d.record.value.sender == c.record.value.sender
          && d.record.value.payload == c.record.value.payload
          && d.record.value.version >= c.record.value.version
          && (d.record.value.version == c.record.value.version ==> d.record == c.record)
          && (c.record.value.status == Completed ==> d.record == c.record))
  }

  lemma EvolvesStep(c: Chat, op: Op)
    requires Inv(c) && Enabled(c, op)
    ensures Evolves(c, Apply(c, op))
  {
  }

  lemma EvolvesItself(c: Chat)
    ensures Evolves(c, c)
  {
  }

  lemma EvolvesTransitive(c: Chat, d: Chat, e: Chat)
    requires Evolves(c, d) && Evolves(d, e)
    ensures Evolves(c, e)
  {
  }

  lemma {:induction false} EvolvesAlways(c: Chat, ops: seq<Op>, j: nat, k: nat)
    requires Init(c) && IsRun(c, ops) && j <= k <= |ops|
    ensures Evolves(At(c, ops, j), At(c, ops, k))
    decreases k
  {
    if j < k {
      EvolvesAlways(c, ops, j, k - 1);
      InvAlways(c, ops, k - 1);
      EnabledAt(c, ops, k - 1);
      AtNext(c, ops, k - 1);
      EvolvesStep(At(c, ops, k - 1), ops[k - 1]);
      EvolvesTransitive(At(c, ops, j), At(c, ops, k - 1), At(c, ops, k));
    }
  }

  /** Fencing by version: of all writes that expect one version, at most one is accepted. */
  lemma OneWritePerVersion(c: Chat, ops: seq<Op>, j: nat, k: nat)
    requires Init(c) && IsRun(c, ops) && j < k < |ops|
    requires ops[j].Update? && ops[k].Update?
    requires ops[j].write.version.Some? && ops[j].write.version == ops[k].write.version
    ensures !(Accepted(At(c, ops, j), ops[j]) && Accepted(At(c, ops, k), ops[k]))
  {
    AtNext(c, ops, j);
    EvolvesAlways(c, ops, j + 1, k);
  }

  /** At most one attempt records completion. */
  lemma OneCompletion(c: Chat, ops: seq<Op>, j: nat, k: nat)
    requires Init(c) && IsRun(c, ops) && j < k < |ops|
    requires ops[j].Update? && ops[j].write.status == Some(Completed) && Accepted(At(c, ops, j), ops[j])
    ensures !(ops[k].Update? && Accepted(At(c, ops, k), ops[k]))
    ensures At(c, ops, k).record == At(c, ops, j + 1).record
  {
    AtNext(c, ops, j);
    EvolvesAlways(c, ops, j + 1, k);
    InvAlways(c, ops, k);
  }

  // ---------------------------------------------------------------- fencing by owner

  predicate Holds(c: Chat, owner: Owner) { c.record.Some? && c.record.value.owner == Some(owner) }

  /** An owner that was drawn and does not hold the record never holds it again. */
  lemma LostForGoodStep(c: Chat, op: Op, owner: Owner)
    requires Inv(c) && Enabled(c, op) && owner < c.drawn && !Holds(c, owner)
    ensures !Holds(Apply(c, op), owner) && owner < Apply(c, op).drawn
    ensures op.Update? && op.write.owner == owner ==> !Accepted(c, op)
  {
  }

  /** After a takeover, a failure or a completion no write of the old owner is accepted, heartbeats and
      failure traps included: a late renewal cannot revive a record marked FAILED. */
  lemma {:induction false} FencedForGood(c: Chat, ops: seq<Op>, owner: Owner, j: nat, k: nat)
    requires Init(c) && IsRun(c, ops) && j <= k <= |ops|
    requires owner < At(c, ops, j).drawn && !Holds(At(c, ops, j), owner)
    ensures !Holds(At(c, ops, k), owner) && owner < At(c, ops, k).drawn
    ensures k < |ops| && ops[k].Update? && ops[k].write.owner == owner ==> !Accepted(At(c, ops, k), ops[k])
    decreases k
  {
    InvAlways(c, ops, k);
    if j < k {
      FencedForGood(c, ops, owner, j, k - 1);
      InvAlways(c, ops, k - 1);
      EnabledAt(c, ops, k - 1);
      AtNext(c, ops, k - 1);
      LostForGoodStep(At(c, ops, k - 1), ops[k - 1], owner);
    }
    if k < |ops| {
      EnabledAt(c, ops, k);
      LostForGoodStep(At(c, ops, k), ops[k], owner);
    }
  }

  /** While an owner still holds the record, nobody else has written it. */
  lemma HeldMeansUntouched(c: Chat, op: Op, owner: Owner)
    requires Inv(c) && Enabled(c, op) && owner < c.drawn
    requires op.Update? ==> op.write.owner != owner
    ensures Holds(Apply(c, op), owner) ==> Apply(c, op).record == c.record
  {
  }

  // ---------------------------------------------------------------- how long a lease keeps others out

  /** A step that gives the owner a lease of two minutes: the way in, or an extension that leaves the work open. */
  predicate Leases(c: Chat, op: Op, owner: Owner) {
    && Accepted(c, op)
    && match op
       case Acquire(_, _) => c.drawn == owner
       case Retry => c.drawn == owner
       case Update(w) => w.owner == owner && w.status == None && w.extend == Some(120)
       case _ => false
  }

  /** A step of the owner that ends its work, or sets another lease than two minutes. */
  predicate Ends(op: Op, owner: Owner) {
    op.Update? && op.write.owner == owner && (op.write.status != None || op.write.extend !in {None, Some(120)})
  }

  /** The owner is at work, and its lease does not run out before `until`. */
  predicate WorksUntil(c: Chat, owner: Owner, until: int) {
    && c.record.Some? && c.record.value.owner == Some(owner) && c.record.value.status == InProgress
    && c.record.value.leaseUntil.Some? && until <= c.record.value.leaseUntil.value
  }

  lemma LeaseIsTwoMinutes(c: Chat, op: Op, owner: Owner)
    requires Inv(c) && Leases(c, op, owner)
    ensures WorksUntil(Apply(c, op), owner, c.now + 120)
  {
  }

  lemma WorksOn(c: Chat, op: Op, owner: Owner, until: int)
    requires Inv(c) && Enabled(c, op) && WorksUntil(c, owner, until) && c.now <= until && !Ends(op, owner)
    requires until <= c.now + 120 && Apply(c, op).now <= until
    ensures WorksUntil(Apply(c, op), owner, until)
    ensures op.Acquire? || op.Retry? ==> !Accepted(c, op)
  {
  }

  lemma {:induction false} WorksOnUntil(c: Chat, ops: seq<Op>, owner: Owner, j: nat, k: nat)
    requires Init(c) && IsRun(c, ops) && j < k <= |ops| && Leases(At(c, ops, j), ops[j], owner)
    requires At(c, ops, k).now <= At(c, ops, j).now + 120
    requires forall i | j < i < k :: !Ends(ops[i], owner)
    ensures WorksUntil(At(c, ops, k), owner, At(c, ops, j).now + 120)
    decreases k
  {
    hide IsRun, Accepted, Leases, WorksUntil, Inv, Apply, Init, Enabled, Ends;
    InvAlways(c, ops, k - 1);
    AtNext(c, ops, k - 1);
    if j == k - 1 {
      LeaseIsTwoMinutes(At(c, ops, j), ops[j], owner);
    } else {
      EvolvesAlways(c, ops, k - 1, k);
      EvolvesAlways(c, ops, j, k - 1);
      WorksOnUntil(c, ops, owner, j, k - 1);
      EnabledAt(c, ops, k - 1);
      WorksOn(At(c, ops, k - 1), ops[k - 1], owner, At(c, ops, j).now + 120);
    }
  }

  /** Until two minutes after it last got in or renewed its lease an owner that has not ended its work holds a record
      that has not expired, whatever the others do and however the clock moves, and nobody takes it over. */
  lemma LeaseKeepsOthersOut(c: Chat, ops: seq<Op>, owner: Owner, j: nat, k: nat)
    requires Init(c) && IsRun(c, ops) && j < k <= |ops| && Leases(At(c, ops, j), ops[j], owner)
    requires At(c, ops, k).now <= At(c, ops, j).now + 120
    requires forall i | j < i < k :: !Ends(ops[i], owner)
    ensures WorksUntil(At(c, ops, k), owner, At(c, ops, j).now + 120)
    ensures k < |ops| && (ops[k].Acquire? || ops[k].Retry?) ==> !Accepted(At(c, ops, k), ops[k])
  {
    hide IsRun, Leases, Inv, Apply, Init, Enabled;
    WorksOnUntil(c, ops, owner, j, k);
  }

  // ---------------------------------------------------------------- how an attempt got in

  /** The ways into the work: a new record, the record of an attempt whose lease ran out, or a failed one. */
  datatype Path = FirstAttempt | TookOver | Retried | NotAcquired

  predicate EntersBy(c: Chat, op: Op, owner: Owner, path: Path) {
    && c.drawn == owner && Accepted(c, op)
    && match path
       case FirstAttempt => op.Acquire? && c.record.None?
       case TookOver => op.Acquire? && c.record.Some?
       case Retried => op.Retry?
       case NotAcquired => false
  }

  /** Somewhere in the history the owner was drawn and got in that way. */
  ghost predicate Entered(c: Chat, ops: seq<Op>, owner: Owner, path: Path) {
    exists i | 0 <= i < |ops| :: EntersBy(At(c, ops, i), ops[i], owner, path)
  }

  lemma EntersNow(c: Chat, before: seq<Op>, op: Op, owner: Owner, path: Path)
    requires EntersBy(Exec(c, before), op, owner, path)
    ensures Entered(c, before + [op], owner, path)
  {
    var ops := before + [op];
    assert ops[..|before|] == before && EntersBy(At(c, ops, |before|), ops[|before|], owner, path);
  }

  lemma EnteredStays(c: Chat, ops: seq<Op>, more: seq<Op>, owner: Owner, path: Path)
    requires Entered(c, ops, owner, path) && ops <= more
    ensures Entered(c, more, owner, path)
  {
    var i :| 0 <= i < |ops| && EntersBy(At(c, ops, i), ops[i], owner, path);
    assert more[..i] == ops[..i] && EntersBy(At(c, more, i), more[i], owner, path);
  }

  lemma DrawnOnce(c: Chat, ops: seq<Op>, owner: Owner, path: Path, i: nat, j: nat)
    requires Init(c) && IsRun(c, ops) && i < j <= |ops| && EntersBy(At(c, ops, i), ops[i], owner, path)
    ensures At(c, ops, j).drawn > owner
  {
    AtNext(c, ops, i);
    EvolvesAlways(c, ops, i + 1, j);
  }

  /** An owner got in only once, so in one way only. */
  lemma EnteredOneWay(c: Chat, ops: seq<Op>, owner: Owner, path: Path, other: Path)
    requires Init(c) && IsRun(c, ops) && Entered(c, ops, owner, path) && Entered(c, ops, owner, other)
    ensures path == other
  {
    var i: nat :| i < |ops| && EntersBy(At(c, ops, i), ops[i], owner, path);
    var j: nat :| j < |ops| && EntersBy(At(c, ops, j), ops[j], owner, other);
    if i < j { DrawnOnce(c, ops, owner, path, i, j); }
    if j < i { DrawnOnce(c, ops, owner, other, j, i); }
  }

  /** The last step was a run refused under a stale version or an expired lease. */
  predicate EndsInRefusedSave(c: Chat, ops: seq<Op>, run: Id) {
    && ops != [] && ops[|ops| - 1].SaveRun? && ops[|ops| - 1].id == run
    && !Accepted(At(c, ops, |ops| - 1), ops[|ops| - 1])
  }
}
