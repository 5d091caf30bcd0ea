/** The admission semaphores in front of the model: a permit is taken before a call is submitted to the
    thread pool and given back by the future's done-callback, or by the caller when there is no future. */
module PermitsProtocol {
  datatype Future = Unsubmitted | Queued | Running | Done

  /** One admitted call. `bailed`: the caller gave up before there was a future. `attached`: the done-callback is on. */
  datatype Call = Call(future: Future, attached: bool, bailed: bool, releases: nat)

  /** `discussed` counts the permits that discussions took: nothing gives those back. */
  datatype Pool = Pool(capacity: nat, free: nat, calls: seq<Call>, discussed: nat)

  datatype Op =
    | Acquire
    | Discuss
    | Submit(id: nat)
    | Bail(id: nat)
    | Attach(id: nat)
    | Start(id: nat)
    | Finish(id: nat)
    | Cancel(id: nat)

  const NEW_CALL := Call(Unsubmitted, false, false, 0)

  /** Some caller or worker is at the point of taking this step. */
  predicate Enabled(p: Pool, op: Op) {
    match op
    case Acquire => true
    case Discuss => true
    case Submit(id) => id < |p.calls| && p.calls[id].future == Unsubmitted && !p.calls[id].bailed
    case Bail(id) => id < |p.calls| && p.calls[id].future == Unsubmitted && !p.calls[id].bailed
    case Attach(id) => id < |p.calls| && p.calls[id].future != Unsubmitted && !p.calls[id].attached
    case Start(id) => id < |p.calls| && p.calls[id].future == Queued
    case Finish(id) => id < |p.calls| && p.calls[id].future == Running
    case Cancel(id) => id < |p.calls| && p.calls[id].future != Unsubmitted
  }

  function Released(p: Pool, id: nat, c: Call): Pool
    requires id < |p.calls|
  {
    p.(free := p.free + 1, calls := p.calls[id := c.(releases := c.releases + 1)])
  }

  /** A future that is done runs its callbacks, one added afterwards included. */
  function Completed(p: Pool, id: nat): Pool
    requires id < |p.calls|
  {
    var c := p.calls[id].(future := Done);
    if c.attached then Released(p, id, c) else p.(calls := p.calls[id := c])
  }

  function Apply(p: Pool, op: Op): Pool
    requires Enabled(p, op)
  {
    match op
    case Acquire => if p.free == 0 then p else p.(free := p.free - 1, calls := p.calls + [NEW_CALL])
    case Discuss => if p.free == 0 then p else p.(free := p.free - 1, discussed := p.discussed + 1)
    case Submit(id) => p.(calls := p.calls[id := p.calls[id].(future := Queued)])
    case Bail(id) => Released(p, id, p.calls[id].(bailed := true))
    case Attach(id) =>
      var c := p.calls[id].(attached := true);
      if c.future == Done then Released(p, id, c) else p.(calls := p.calls[id := c])
    case Start(id) => p.(calls := p.calls[id := p.calls[id].(future := Running)])
    case Finish(id) => Completed(p, id)
    case Cancel(id) => if p.calls[id].future == Queued then Completed(p, id) else p
  }

  /** The call is being handed over, or its future has not finished. */
  predicate Outstanding(c: Call) {
    if c.attached then c.future != Done else !c.bailed
  }

  function CountOutstanding(calls: seq<Call>): nat {
    if calls == [] then 0
    else CountOutstanding(calls[..|calls| - 1]) + (if Outstanding(calls[|calls| - 1]) then 1 else 0)
  }

  predicate Unfinished(c: Call) { c.future == Queued || c.future == Running }

  function CountUnfinished(calls: seq<Call>): nat {
    if calls == [] then 0
    else CountUnfinished(calls[..|calls| - 1]) + (if Unfinished(calls[|calls| - 1]) then 1 else 0)
  }

  ghost predicate Balanced(p: Pool) {
    p.free + CountOutstanding(p.calls) + p.discussed == p.capacity
  }

  ghost predicate OneReleaseEach(p: Pool) {
    forall i :: 0 <= i < |p.calls| ==>
      && p.calls[i].releases == (if Outstanding(p.calls[i]) then 0 else 1)
      && (p.calls[i].bailed ==> p.calls[i].future == Unsubmitted)
      && (p.calls[i].attached ==> p.calls[i].future != Unsubmitted)
  }

  ghost predicate Inv(p: Pool) { Balanced(p) && OneReleaseEach(p) }

  ghost predicate Init(p: Pool) { p.free == p.capacity && p.calls == [] && p.discussed == 0 }

  lemma {:induction false} CountAfterUpdate(calls: seq<Call>, id: nat, c: Call)
    requires id < |calls|
    ensures CountOutstanding(calls[id := c])
         == CountOutstanding(calls) - (if Outstanding(calls[id]) then 1 else 0) + (if Outstanding(c) then 1 else 0)
  {
    var last := |calls| - 1;
    if id == last {
      assert calls[id := c][..last] == calls[..last];
    } else {
      assert calls[id := c][..last] == calls[..last][id := c];
      CountAfterUpdate(calls[..last], id, c);
    }
  }

  lemma UpdateKeepsInv(p: Pool, id: nat, c: Call, free: nat)
    requires Inv(p) && id < |p.calls|
    requires c.releases == (if Outstanding(c) then 0 else 1)
    requires (c.bailed ==> c.future == Unsubmitted) && (c.attached ==> c.future != Unsubmitted)
    requires free == p.free + (if Outstanding(p.calls[id]) then 1 else 0) - (if Outstanding(c) then 1 else 0)
    ensures Inv(p.(free := free, calls := p.calls[id := c]))
  {
    CountAfterUpdate(p.calls, id, c);
  }

  /** Every step of every caller and worker keeps the account. */
  lemma InvStep(p: Pool, op: Op)
    requires Inv(p) && Enabled(p, op)
    ensures Inv(Apply(p, op))
  {
    match op
    case Acquire => assert (p.calls + [NEW_CALL])[..|p.calls|] == p.calls;
    case Discuss =>
    case Submit(id) => UpdateKeepsInv(p, id, Apply(p, op).calls[id], Apply(p, op).free);
    case Bail(id) => UpdateKeepsInv(p, id, Apply(p, op).calls[id], Apply(p, op).free);
    case Attach(id) => UpdateKeepsInv(p, id, Apply(p, op).calls[id], Apply(p, op).free);
    case Start(id) => UpdateKeepsInv(p, id, Apply(p, op).calls[id], Apply(p, op).free);
    case Finish(id) => UpdateKeepsInv(p, id, Apply(p, op).calls[id], Apply(p, op).free);
    case Cancel(id) => UpdateKeepsInv(p, id, Apply(p, op).calls[id], Apply(p, op).free);
  }

  lemma {:induction false} UnfinishedAreOutstanding(p: Pool, n: nat)
    requires OneReleaseEach(p) && n <= |p.calls|
    ensures CountUnfinished(p.calls[..n]) <= CountOutstanding(p.calls[..n])
  {
    if n > 0 {
      UnfinishedAreOutstanding(p, n - 1);
      assert p.calls[..n][..n - 1] == p.calls[..n - 1];
    }
  }

  // ----- whole runs -----

  function Exec(p: Pool, ops: seq<Op>): Pool {
    if ops == [] then p
    else
      var q := Exec(p, ops[..|ops| - 1]);
      if Enabled(q, ops[|ops| - 1]) then Apply(q, ops[|ops| - 1]) else q
  }

  /** In every interleaving: the permits free, outstanding and lost to discussions are the capacity; no call is
      released twice or before its time; and no more futures are unfinished than there are permits. */
  lemma {:induction false} PermitsBalanceAlways(p: Pool, ops: seq<Op>)
    requires Init(p)
    ensures Inv(Exec(p, ops)) && Exec(p, ops).capacity == p.capacity
    ensures CountUnfinished(Exec(p, ops).calls) + Exec(p, ops).discussed <= p.capacity
  {
    if ops != [] {
      PermitsBalanceAlways(p, ops[..|ops| - 1]);
      var q := Exec(p, ops[..|ops| - 1]);
      if Enabled(q, ops[|ops| - 1]) { InvStep(q, ops[|ops| - 1]); }
    }
    var last := Exec(p, ops);
    UnfinishedAreOutstanding(last, |last.calls|);
    assert last.calls[..|last.calls|] == last.calls;
  }

  lemma {:induction false} NoneOutstanding(calls: seq<Call>)
    requires forall i :: 0 <= i < |calls| ==> !Outstanding(calls[i])
    ensures CountOutstanding(calls) == 0
  {
    if calls != [] { NoneOutstanding(calls[..|calls| - 1]); }
  }

  /** Once every call is over the semaphore is whole again exactly when no discussion ever took a permit. */
  lemma QuiescentPoolIsWholeIffNothingDiscussed(p: Pool, ops: seq<Op>)
    requires Init(p)
    requires forall i :: 0 <= i < |Exec(p, ops).calls| ==> !Outstanding(Exec(p, ops).calls[i])
    ensures Exec(p, ops).free == p.capacity <==> Exec(p, ops).discussed == 0
  {
    PermitsBalanceAlways(p, ops);
    NoneOutstanding(Exec(p, ops).calls);
  }

  /** Permits taken by discussions never come back, and once they are all gone nobody is admitted again. */
  lemma {:induction false} DiscussionsStarveForGood(p: Pool, ops: seq<Op>)
    requires Inv(p)
    ensures Inv(Exec(p, ops)) && p.discussed <= Exec(p, ops).discussed <= Exec(p, ops).capacity == p.capacity
    ensures p.discussed == p.capacity ==> Exec(p, ops).free == 0 && |Exec(p, ops).calls| == |p.calls|
  {
    if ops != [] {
      DiscussionsStarveForGood(p, ops[..|ops| - 1]);
      var q := Exec(p, ops[..|ops| - 1]);
      if Enabled(q, ops[|ops| - 1]) { InvStep(q, ops[|ops| - 1]); }
    }
  }

  /** As many discussions as there are permits are enough for that. */
  lemma {:induction false} DiscussionsUseUpThePool(p: Pool, n: nat)
    requires Init(p) && n <= p.capacity
    ensures Exec(p, seq(n, _ => Discuss)).discussed == n && Exec(p, seq(n, _ => Discuss)).free == p.capacity - n
  {
    if n > 0 {
      DiscussionsUseUpThePool(p, n - 1);
      assert seq(n, _ => Discuss)[..n - 1] == seq(n - 1, _ => Discuss);
    }
  }

  /** A call whose permit is back keeps its one release, whatever anyone does later. */
  lemma {:induction false} ReleasedOnceForGood(p: Pool, ops: seq<Op>, id: nat)
    requires Inv(p) && id < |p.calls| && !Outstanding(p.calls[id])
    ensures Inv(Exec(p, ops)) && id < |Exec(p, ops).calls|
    ensures !Outstanding(Exec(p, ops).calls[id]) && Exec(p, ops).calls[id].releases == 1
  {
    if ops != [] {
      ReleasedOnceForGood(p, ops[..|ops| - 1], id);
      var q := Exec(p, ops[..|ops| - 1]);
      if Enabled(q, ops[|ops| - 1]) { InvStep(q, ops[|ops| - 1]); }
    }
  }
}
