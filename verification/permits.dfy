/** The callers that take a permit, hand it to a future or give it back, among everyone else's steps. */
module Permits {
  import opened PermitsProtocol
  import opened Options

  datatype Reply = Rejected | SubmissionFailed | SetupFailed | TimedOut | Answered

  /** What the world does to one call: the client may fail to build, the pool may refuse. */
  datatype World = World(setupWorks: bool, poolAccepts: bool)

  /** The step belongs to the caller of that call; workers and a shutdown may take the others at any time. */
  predicate CallerOf(op: Op, id: nat) {
    match op
    case Submit(i) => i == id
    case Bail(i) => i == id
    case Attach(i) => i == id
    case _ => false
  }

  /** What others can do to a call: move its future forward, and nothing else. */
  ghost predicate OnlyWorked(before: Call, after: Call) {
    && after.attached == before.attached && after.bailed == before.bailed
    && (before.future == Unsubmitted <==> after.future == Unsubmitted)
    && (before.future == Done ==> after.future == Done)
  }

  class Bulkhead {
    const capacity: nat
    var free: nat
    var calls: seq<Call>
    var discussed: nat
    const others: nat -> seq<Op>
    var accesses: nat

    ghost var history: seq<Op>

    function View(): Pool
      reads this
    {
      Pool(capacity, free, calls, discussed)
    }

    ghost predicate Valid()
      reads this
    {
      View() == Exec(Pool(capacity, capacity, [], 0), history) && Inv(View())
    }

    constructor (capacity: nat, others: nat -> seq<Op>)
      ensures Valid() && View() == Pool(capacity, capacity, [], 0) && this.others == others
    {
      this.capacity, free, calls, discussed := capacity, capacity, [], 0;
      this.others, accesses, history := others, 0, [];
    }

    method Perform(op: Op)
      requires Valid() && Enabled(View(), op)
      modifies this
      ensures Valid() && accesses == old(accesses)
      ensures View() == Apply(old(View()), op) && history == old(history) + [op]
    {
      InvStep(View(), op);
      var next := Apply(View(), op);
      free, calls, discussed := next.free, next.calls, next.discussed;
      history := history + [op];
      assert history[..|history| - 1] == old(history);
    }

    ghost predicate Quiet() { forall n :: others(n) == [] }

    /** The pool after the first `k` steps of the history. */
    ghost function Then(k: nat): Pool
      requires k <= |history|
      reads this
    {
      Exec(Pool(capacity, capacity, [], 0), history[..k])
    }

    /** The enabled steps of everyone else before the next step of this caller. */
    method Interfere(mine: Option<nat>)
      requires Valid() && (mine.Some? ==> mine.value < |calls|)
      modifies this
      ensures Valid() && |old(calls)| <= |calls| && old(history) <= history
      ensures Quiet() ==> View() == old(View()) && history == old(history)
      ensures mine.Some? ==> OnlyWorked(old(calls)[mine.value], calls[mine.value])
    {
      var ops := others(accesses);
      accesses := accesses + 1;
      for i := 0 to |ops|
        invariant Valid() && |old(calls)| <= |calls| && old(history) <= history
        invariant Quiet() ==> View() == old(View()) && history == old(history)
        invariant mine.Some? ==> OnlyWorked(old(calls)[mine.value], calls[mine.value])
      {
        if Enabled(View(), ops[i]) && (mine.None? || !CallerOf(ops[i], mine.value)) {
          Perform(ops[i]);
        }
      }
    }

    /** A non-blocking acquire. */
    method TryAcquire() returns (mine: Option<nat>)
      requires Valid()
      modifies this
      ensures Valid() && (mine.None? <==> old(free) == 0) && history == old(history) + [Acquire]
      ensures mine.None? ==> View() == old(View())
      ensures mine.Some? ==> mine.value == |old(calls)| && calls == old(calls) + [NEW_CALL] && free == old(free) - 1
    {
      mine := if free == 0 then None else Some(|calls|);
      Perform(Acquire);
    }

    /** The caller is done with its permit: it went back with the call, or the future's callback will return it. */
    ghost predicate Settled(id: nat)
      reads this
    {
      && id < |calls| && (calls[id].bailed || calls[id].attached)
      && calls[id].releases == if calls[id].attached && calls[id].future != Done then 0 else 1
    }

    /** The future may have started, or even finished, before its callback is attached. */
    method SubmitAndAttach(id: nat)
      requires Valid() && id < |calls| && calls[id].future == Unsubmitted && !calls[id].bailed && !calls[id].attached
      modifies this
      ensures Valid() && |old(calls)| <= |calls| && calls[id].attached && !calls[id].bailed && old(history) <= history
      ensures Quiet() ==>
                free == old(free) && calls == old(calls)[id := old(calls)[id].(future := Queued, attached := true)]
    {
      Perform(Submit(id));
      Interfere(Some(id));
      Perform(Attach(id));
    }

    /** Whether the call's future was done at that step. */
    ghost predicate DoneAt(id: nat, k: nat)
      reads this
    {
      k <= |history| && id < |Then(k).calls| && Then(k).calls[id].future == Done
    }

    /** `askedAt` is the step at which the wait ended. */
    method Await(id: nat, cancels: bool) returns (reply: Reply, ghost askedAt: nat)
      requires Valid() && id < |calls| && calls[id].attached && !calls[id].bailed
      modifies this
      ensures Valid() && |old(calls)| <= |calls| && calls[id].attached && !calls[id].bailed && old(history) <= history
      ensures |old(history)| <= askedAt <= |history|
      ensures reply == if DoneAt(id, askedAt) then Answered else TimedOut
      ensures reply == Answered ==> calls[id].future == Done
      ensures reply == TimedOut && cancels ==> calls[id].future == Running || calls[id].future == Done
      ensures Quiet() && old(calls)[id].future == Queued ==>
                && reply == TimedOut
                && free == old(free) + (if cancels then 1 else 0)
                && calls[id].future == (if cancels then Done else Queued)
    {
      Interfere(Some(id));
      askedAt := |history|;
      ghost var asked := history;
      assert history[..askedAt] == asked;
      if calls[id].future == Done { return Answered, askedAt; }
      if cancels {
        Interfere(Some(id));
        Perform(Cancel(id));
        assert history[..askedAt] == asked;
      }
      return TimedOut, askedAt;
    }

    /** The step `acquiredAt` asked for a permit, and that was granted exactly if one was free. */
    ghost predicate Asked(mine: Option<nat>, acquiredAt: nat)
      reads this
    {
      && acquiredAt < |history| && history[acquiredAt] == Acquire
      && (mine.None? <==> Then(acquiredAt).free == 0)
    }

    /** How a caller that tries once is answered, by what it asked when: no permit was free, the client or the pool
        failed, the future was done when the wait ended, or not. */
    ghost predicate IsAnswer(mine: Option<nat>, reply: Reply, setupWorks: bool, poolAccepts: bool, askedAt: nat)
      reads this
    {
      reply ==
        if mine.None? then Rejected
        else if !setupWorks then SetupFailed
        else if !poolAccepts then SubmissionFailed
        else if DoneAt(mine.value, askedAt) then Answered
        else TimedOut
    }

    /** Undisturbed, nobody works on the future: a cancelled call gives its permit back, any other keeps it. */
    ghost predicate IsQuietEnd(was: Pool, mine: Option<nat>, reply: Reply, cancels: bool)
      reads this
    {
      && (mine.None? <==> was.free == 0)
      && (mine.Some? ==>
            && mine.value == |was.calls| < |calls|
            && reply in {SetupFailed, SubmissionFailed, TimedOut}
            && free == was.free - (if reply == TimedOut && !cancels then 1 else 0))
    }

    /** The account says so of every call that was handed over or given up. */
    lemma HandledIsSettled(id: nat)
      requires Valid() && id < |calls| && (calls[id].bailed || calls[id].attached)
      ensures Settled(id)
    {
    }

    lemma StartIsKnown()
      requires Valid()
      ensures Then(|history|) == View()
    {
      assert history[..|history|] == history;
    }

    /** The diagnosis engine: the permit goes back by hand only when submission itself fails. */
    method TryGeminiDiagnosis(world: World)
      returns (mine: Option<nat>, reply: Reply, ghost acquiredAt: nat, ghost askedAt: nat)
      requires Valid()
      modifies this
      ensures Valid() && old(history) <= history && |old(history)| <= acquiredAt <= askedAt
      ensures Asked(mine, acquiredAt) && IsAnswer(mine, reply, true, world.poolAccepts, askedAt)
      ensures mine.Some? ==> |old(calls)| <= mine.value && Settled(mine.value)
      ensures reply == SubmissionFailed <==> mine.Some? && calls[mine.value].bailed
      ensures reply == Answered ==> calls[mine.value].future == Done
      ensures Quiet() ==> IsQuietEnd(old(View()), mine, reply, true)
    {
      hide Bulkhead.Valid, Bulkhead.Settled, Exec;
      Interfere(None);
      StartIsKnown();
      acquiredAt, askedAt := |history|, |history|;
      ghost var before := history;
      mine := TryAcquire();
      assert history[..acquiredAt] == before[..acquiredAt];
      if mine.None? { return mine, Rejected, acquiredAt, askedAt; }
      Interfere(mine);
      if !world.poolAccepts {
        Perform(Bail(mine.value));
        HandledIsSettled(mine.value);
        assert history[..acquiredAt] == before[..acquiredAt];
        return mine, SubmissionFailed, acquiredAt, askedAt;
      }
      SubmitAndAttach(mine.value);
      reply, askedAt := Await(mine.value, true);
      HandledIsSettled(mine.value);
      assert history[..acquiredAt] == before[..acquiredAt];
    }

    /** The breakdown and deliverable calls: a flag says whether the future has taken the permit over, and a
        finally clause gives it back when not. Only the breakdown cancels a future that timed out. */
    method Infer(world: World, cancels: bool)
      returns (mine: Option<nat>, reply: Reply, ghost acquiredAt: nat, ghost askedAt: nat)
      requires Valid()
      modifies this
      ensures Valid() && old(history) <= history && |old(history)| <= acquiredAt <= askedAt
      ensures Asked(mine, acquiredAt) && IsAnswer(mine, reply, world.setupWorks, world.poolAccepts, askedAt)
      ensures mine.Some? ==> |old(calls)| <= mine.value && Settled(mine.value)
      ensures reply == SetupFailed || reply == SubmissionFailed <==> mine.Some? && calls[mine.value].bailed
      ensures reply == Answered ==> calls[mine.value].future == Done
      ensures Quiet() ==> IsQuietEnd(old(View()), mine, reply, cancels)
    {
      hide Bulkhead.Valid, Bulkhead.Settled, Exec;
      Interfere(None);
      StartIsKnown();
      acquiredAt, askedAt := |history|, |history|;
      ghost var before := history;
      mine := TryAcquire();
      assert history[..acquiredAt] == before[..acquiredAt];
      if mine.None? { return mine, Rejected, acquiredAt, askedAt; }
      var handedToFuture := false;
      handedToFuture, reply, askedAt := Attempt(mine.value, world, cancels);
      ghost var attempted := history;
      assert history[..acquiredAt] == before[..acquiredAt];
      // finally
      if !handedToFuture {
        Perform(Bail(mine.value));
        assert history[..acquiredAt] == before && history[..askedAt] == attempted[..askedAt];
      }
      HandledIsSettled(mine.value);
    }

    method Attempt(id: nat, world: World, cancels: bool)
      returns (handedToFuture: bool, reply: Reply, ghost askedAt: nat)
      requires Valid() && id < |calls| && calls[id] == NEW_CALL
      modifies this
      ensures Valid() && |old(calls)| <= |calls| && !calls[id].bailed && old(history) <= history
      ensures |old(history)| <= askedAt <= |history|
      ensures handedToFuture <==> calls[id].attached
      ensures handedToFuture <==> world.setupWorks && world.poolAccepts
      ensures IsAnswer(Some(id), reply, world.setupWorks, world.poolAccepts, askedAt)
      ensures !handedToFuture ==> calls[id].future == Unsubmitted
      ensures reply == Answered ==> calls[id].future == Done
      ensures Quiet() ==> reply != Answered && free == old(free) + (if reply == TimedOut && cancels then 1 else 0)
    {
      handedToFuture := false;
      Interfere(Some(id));
      askedAt := |history|;
      if !world.setupWorks { return handedToFuture, SetupFailed, askedAt; }
      if !world.poolAccepts { return handedToFuture, SubmissionFailed, askedAt; }
      SubmitAndAttach(id);
      handedToFuture := true;
      reply, askedAt := Await(id, cancels);
    }
  }
}
