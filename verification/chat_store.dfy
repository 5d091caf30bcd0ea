/** The chat store as an object, and the tracker a request shares with its heartbeat thread. */
module ChatStore {
  import opened Options
  import opened ChatProtocol
  import opened ChatRuns

  /** What the network does to a write: applied and answered, applied with the answer lost, or lost. */
  datatype Fate = Delivered | AnswerLost | WriteLost

  datatype Reply = Answer(ok: bool, record: Option<Record>) | Raised

  class Store {
    const ids: Ids
    var record: Option<Record>
    var messages: seq<Id>
    var runs: seq<Id>
    var now: int
    var drawn: Owner

    /** The lease owner this request acquired, if any; its steps are never among `others`. */
    var me: Option<Owner>
    const others: nat -> seq<Op>
    const fates: nat -> Fate
    var accesses: nat

    ghost const origin: Chat
    ghost var history: seq<Op>

    function View(): Chat
      reads this
    {
      Chat(ids, record, messages, runs, now, drawn)
    }

    ghost predicate Valid()
      reads this
    {
      && Init(origin) && IsRun(origin, history) && View() == Exec(origin, history) && Inv(View())
      && (me.Some? ==> me.value < drawn)
    }

    ghost predicate Smooth() { forall n :: others(n) == [] && fates(n) == Delivered }

    /** Every write arrives and is answered; what the others do is open. */
    ghost predicate Reliable() { forall n :: fates(n) == Delivered }

    constructor (ids: Ids, now: int, others: nat -> seq<Op>, fates: nat -> Fate)
      ensures Valid() && View() == Chat(ids, None, [], [], now, 0) && me == None
      ensures this.others == others && this.fates == fates
    {
      this.ids, record, messages, runs, this.now, drawn := ids, None, [], [], now, 0;
      me, this.others, this.fates, accesses := None, others, fates, 0;
      origin, history := Chat(ids, None, [], [], now, 0), [];
    }

    ghost method Log(pre: Chat, op: Op)
      requires Init(origin) && IsRun(origin, history) && Exec(origin, history) == pre && Inv(pre)
      requires Enabled(pre, op) && View() == Apply(pre, op) && (me.Some? ==> me.value < drawn)
      modifies this`history
      ensures Valid() && history == old(history) + [op]
    {
      IsRunExtends(origin, history, op);
      InvStep(pre, op);
      history := history + [op];
    }

    predicate Foreign(op: Op)
      reads this`me
    {
      op.Update? ==> Some(op.write.owner) != me
    }

    /** The enabled steps of everyone else before the next access. */
    method Interfere()
      requires Valid()
      modifies this
      ensures Valid() && me == old(me) && old(history) <= history && Evolves(old(View()), View())
      ensures me.Some? && Holds(View(), me.value) ==> record == old(record)
      ensures me.Some? && !Holds(old(View()), me.value) ==> !Holds(View(), me.value)
      ensures Smooth() ==> View() == old(View()) && history == old(history)
    {
      var ops := others(accesses);
      accesses := accesses + 1;
      for i := 0 to |ops|
        invariant Valid() && me == old(me) && old(history) <= history && Evolves(old(View()), View())
        invariant me.Some? && Holds(View(), me.value) ==> record == old(record)
        invariant me.Some? && !Holds(old(View()), me.value) ==> !Holds(View(), me.value)
        invariant Smooth() ==> View() == old(View()) && history == old(history)
      {
        if Enabled(View(), ops[i]) && Foreign(ops[i]) {
          ghost var mid := View();
          Perform(ops[i]);
          EvolvesStep(mid, ops[i]);
          EvolvesTransitive(old(View()), mid, View());
          if me.Some? {
            HeldMeansUntouched(mid, ops[i], me.value);
            if !Holds(mid, me.value) { LostForGoodStep(mid, ops[i], me.value); }
          }
        }
      }
    }

    method Perform(op: Op)
      requires Valid() && Enabled(View(), op)
      modifies this
      ensures Valid() && me == old(me) && accesses == old(accesses) && history == old(history) + [op]
      ensures View() == Apply(old(View()), op)
    {
      Install(Apply(View(), op));
      Log(old(View()), op);
    }

    method Install(next: Chat)
      requires next.ids == ids
      modifies this
      ensures View() == next && me == old(me) && accesses == old(accesses) && history == old(history)
    {
      record, messages, runs, now, drawn := next.record, next.messages, next.runs, next.now, next.drawn;
    }

    // -------------------------------------------------------------- acquisition

    method AcquireChatIdempotency(sender: nat, payload: nat) returns (acquired: bool, found: Record)
      requires Valid() && me == None
      modifies this
      ensures Valid() && history == old(history) + [Acquire(sender, payload)]
      ensures View() == Apply(old(View()), Acquire(sender, payload)) && record == Some(found)
      ensures acquired == Accepted(old(View()), Acquire(sender, payload))
      ensures acquired ==> me == Some(old(drawn)) && found.owner == me
      ensures !acquired ==> me == None && found == old(record).value
    {
      var owner := drawn;
      drawn := drawn + 1;
      if record.Some? {
        var existing := record.value;
        acquired := Expired(existing, now);
        if acquired {
          existing := existing.(version := existing.version + 1, owner := Some(owner),
              leaseUntil := Some(now + LEASE_SECONDS));
          record, me := Some(existing), Some(owner);
        }
        found := existing;
      } else {
        found := Record(sender, payload, InProgress, None, None, None, 1, Some(owner), Some(now + LEASE_SECONDS));
        record, me, acquired := Some(found), Some(owner), true;
      }
      Log(old(View()), Acquire(sender, payload));
    }

    method TransitionFailedToInProgress() returns (ok: bool)
      requires Valid() && me == None
      modifies this
      ensures Valid() && history == old(history) + [Retry]
      ensures View() == Apply(old(View()), Retry) && ok == Accepted(old(View()), Retry)
      ensures ok ==> record.Some? && me == Some(old(drawn)) && record.value.owner == me
      ensures !ok ==> me == None
    {
      var owner := drawn;
      drawn := drawn + 1;
      ok := record.Some? && (record.value.status == Failed || Expired(record.value, now));
      if ok {
        record := Some(TakenOver(record.value, owner, now));
        me := Some(owner);
      }
      Log(old(View()), Retry);
    }

    // -------------------------------------------------------------- writes

    method WriteFenced(w: Write) returns (ok: bool)
      modifies this`record
      ensures ok == UpdateAccepted(old(View()), w)
      ensures View() == Apply(old(View()), Update(w))
    {
      if record.None? { return false; }
      var r := record.value;
      if r.owner != Some(w.owner) { return false; }
      if w.version.Some? && r.version != w.version.value { return false; }
      if w.status != Some(Failed) && Expired(r, now) { return false; }
      if w.status.Some? { r := r.(status := w.status.value); }
      if w.user.Some? { r := r.(user := w.user); }
      if w.agent.Some? { r := r.(agent := w.agent); }
      if w.run.Some? { r := r.(run := w.run); }
      r := r.(version := r.version + 1);
      if w.extend.Some? && r.status == InProgress {
        r := r.(leaseUntil := Some(now + w.extend.value));
      } else if r.status != InProgress {
        r := r.(leaseUntil := None, owner := None);
      }
      record := Some(r);
      ok := true;
    }

    method UpdateChatIdempotencyFenced(w: Write) returns (reply: Reply)
      requires Valid() && Enabled(View(), Update(w))
      modifies this`record, this`history
      ensures Valid() && history == if fates(accesses) == WriteLost then old(history) else old(history) + [Update(w)]
      ensures View() == if fates(accesses) == WriteLost then old(View()) else Apply(old(View()), Update(w))
      ensures reply == if fates(accesses) == Delivered then Answer(UpdateAccepted(old(View()), w), record) else Raised
    {
      reply := Raised;
      if fates(accesses) != WriteLost {
        var ok := WriteFenced(w);
        Log(old(View()), Update(w));
        if fates(accesses) == Delivered { reply := Answer(ok, record); }
      }
    }

    method InsertMessage(id: Id) returns (ok: bool)
      requires Valid() && Enabled(View(), AddMessage(id))
      modifies this`messages, this`history
      ensures Valid()
      ensures history == if fates(accesses) == WriteLost then old(history) else old(history) + [AddMessage(id)]
      ensures View() == if fates(accesses) == WriteLost then old(View()) else Apply(old(View()), AddMessage(id))
      ensures ok == (fates(accesses) == Delivered)
    {
      if fates(accesses) != WriteLost {
        if id !in messages { messages := messages + [id]; }
        Log(old(View()), AddMessage(id));
      }
      ok := fates(accesses) == Delivered;
    }

    method SaveRunFenced(id: Id, version: nat) returns (reply: Reply)
      requires Valid() && Enabled(View(), SaveRun(id, version))
      modifies this`runs, this`history
      ensures Valid()
      ensures history == if fates(accesses) == WriteLost then old(history) else old(history) + [SaveRun(id, version)]
      ensures View() == if fates(accesses) == WriteLost then old(View()) else Apply(old(View()), SaveRun(id, version))
      ensures reply
           == if fates(accesses) == Delivered then Answer(SaveAccepted(old(View()), version), record) else Raised
      ensures reply.Answer? && reply.ok ==> id in runs
    {
      reply := Raised;
      if fates(accesses) != WriteLost {
        var ok := SaveAccepted(View(), version);
        if ok && id !in runs { runs := runs + [id]; }
        Log(old(View()), SaveRun(id, version));
        if fates(accesses) == Delivered { reply := Answer(ok, record); }
      }
    }
  }

  datatype FailureCode = Healthy | RenewalRejected | HeartbeatError | JoinTimeout | FencedOff

  /** Version and health, shared by a request and its heartbeat thread under one lock. */
  class Tracker {
    const owner: Owner
    var version: nat
    var failure: FailureCode

    constructor (version: nat, owner: Owner)
      ensures this.version == version && this.owner == owner && failure == Healthy
    {
      this.version, this.owner, failure := version, owner, Healthy;
    }

    method UpdateVersion(newVersion: nat)
      modifies this`version
      ensures version == newVersion
    {
      version := newVersion;
    }

    method MarkUnhealthy(code: FailureCode)
      requires code != Healthy
      modifies this`failure
      ensures failure == code
    {
      failure := code;
    }

    predicate IsHealthy()
      reads this
    {
      failure == Healthy
    }
  }

  /** The tracker speaks for this request, and while the request holds the record it knows its version. */
  ghost predicate Synced(store: Store, tracker: Tracker)
    reads store, tracker
  {
    && store.me == Some(tracker.owner)
    && (Holds(store.View(), tracker.owner) ==> store.record.value.version == tracker.version)
  }
}
