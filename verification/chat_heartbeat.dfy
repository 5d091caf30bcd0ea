/** The heartbeat thread of a request and the block that supervises it, and the fenced checkpoints
    of the main thread. */
module ChatHeartbeat {
  import opened Options
  import opened ChatProtocol
  import opened ChatRuns
  import opened ChatStore

  /** Where the heartbeat thread is when the block stops it: finished, or still alive when the join
      times out, with its current renewal not yet or already written. */
  datatype Cut = Joined | BeforeWrite | AfterWrite

  datatype Exit = Normal | Conflict | Unavailable

  function Renewal(owner: Owner, version: nat): Write {
    Write(Some(version), owner, None, None, None, None, Some(LEASE_SECONDS))
  }

  function Revocation(owner: Owner): Write {
    Write(None, owner, Some(Failed), None, None, None, None)
  }

  /** So many renewals of two minutes each, the first of them on the given version. */
  function Renewals(owner: Owner, version: nat, n: nat): seq<Op> {
    if n == 0 then []
    else
      Renewals(owner, version, n - 1) + [Update(Write(Some(version + n - 1), owner, None, None, None, None, Some(120)))]
  }

  /** The record after so many accepted renewals, the last of them now: only version and lease have changed. */
  function RenewedTimes(r: Record, n: nat, now: int): Record {
    if n == 0 then r else r.(version := r.version + n, leaseUntil := Some(now + 120))
  }

  /** The record of an attempt that gave up: what it recorded stays, for a retry to find. */
  function Revoked(r: Record): Record {
    r.(status := Failed, version := r.version + 1, owner := None, leaseUntil := None)
  }

  predicate Live(c: Chat, owner: Owner) { Holds(c, owner) && !Expired(c.record.value, c.now) }

  /** The owner has two minutes from now, and the record this version. */
  ghost predicate HoldsFresh(store: Store, owner: Owner, version: nat)
    reads store
  {
    && Holds(store.View(), owner)
    && store.record.value.version == version && store.record.value.leaseUntil == Some(store.now + 120)
  }

  /** One turn of the heartbeat loop. */
  method Renew(store: Store, tracker: Tracker)
    requires store.Valid() && Synced(store, tracker) && tracker.IsHealthy()
    modifies store, tracker
    ensures store.Valid() && store.me == old(store.me) && old(store.history) <= store.history
    ensures Evolves(old(store.View()), store.View())
    ensures tracker.IsHealthy() ==> Synced(store, tracker)
    ensures tracker.IsHealthy() ==>
              HoldsFresh(store, tracker.owner, tracker.version) && tracker.version == old(tracker.version) + 1
    ensures store.Smooth() && !Live(old(store.View()), tracker.owner) ==>
              !tracker.IsHealthy() && store.record == old(store.record)
    ensures store.Smooth() ==> store.runs == old(store.runs) && store.messages == old(store.messages)
    ensures store.Smooth() && Live(old(store.View()), tracker.owner) ==>
              && tracker.IsHealthy()
              && Live(store.View(), tracker.owner)
              && store.View() == old(store.View()).(
                   record := Some(RenewedTimes(old(store.record).value, 1, old(store.now))))
              && store.history == old(store.history) + Renewals(tracker.owner, old(store.record).value.version, 1)
  {
    hide IsRun, Exec;
    assert Renewals(tracker.owner, tracker.version, 1)
        == [Update(Write(Some(tracker.version), tracker.owner, None, None, None, None, Some(120)))];
    var current := tracker.version;
    store.Interfere();
    ghost var mid := store.View();
    var reply := store.UpdateChatIdempotencyFenced(Renewal(tracker.owner, current));
    EvolvesStep(mid, Update(Renewal(tracker.owner, current)));
    EvolvesTransitive(old(store.View()), mid, store.View());
    match reply {
      case Raised => tracker.MarkUnhealthy(HeartbeatError);
      case Answer(ok, found) =>
        if ok && found.Some? {
          tracker.UpdateVersion(found.value.version);
        } else {
          tracker.MarkUnhealthy(RenewalRejected);
        }
    }
  }

  /** A renewal whose turn was cut off: the tracker is not told. */
  method RenewUnnoticed(store: Store, owner: Owner, version: nat)
    requires store.Valid() && store.me == Some(owner)
    modifies store
    ensures store.Valid() && store.me == old(store.me) && old(store.history) <= store.history
    ensures Evolves(old(store.View()), store.View())
    ensures store.Smooth() ==> store.runs == old(store.runs) && store.messages == old(store.messages)
    ensures store.Smooth() && Live(old(store.View()), owner) ==> Live(store.View(), owner)
    ensures !Holds(old(store.View()), owner) ==> !Holds(store.View(), owner)
    ensures store.Smooth() && !Holds(old(store.View()), owner) ==> store.record == old(store.record)
  {
    store.Interfere();
    ghost var mid := store.View();
    var _ := store.UpdateChatIdempotencyFenced(Renewal(owner, version));
    EvolvesStep(mid, Update(Renewal(owner, version)));
    EvolvesTransitive(old(store.View()), mid, store.View());
  }

  /** Marks the record FAILED on the owner's authority alone, whatever its version. */
  method Revoke(store: Store, owner: Owner) returns (exit: Exit)
    requires store.Valid() && store.me == Some(owner) && store.record.Some?
    modifies store
    ensures store.Valid() && store.me == old(store.me) && old(store.history) <= store.history
    ensures Evolves(old(store.View()), store.View())
    ensures exit in {Conflict, Unavailable}
    ensures exit == Conflict ==> !Holds(store.View(), owner)
    ensures exit == Unavailable ==> !store.Smooth()
    ensures store.Smooth() && Holds(old(store.View()), owner) ==> store.record == Some(Revoked(old(store.record).value))
    ensures store.Smooth() && !Holds(old(store.View()), owner) ==> store.record == old(store.record)
    ensures store.Smooth() ==> store.runs == old(store.runs) && store.messages == old(store.messages)
  {
    store.Interfere();
    ghost var mid := store.View();
    var reply := store.UpdateChatIdempotencyFenced(Revocation(owner));
    EvolvesStep(mid, Update(Revocation(owner)));
    EvolvesTransitive(old(store.View()), mid, store.View());
    exit := Unavailable;
    if reply.Answer? {
      if reply.ok || (reply.record.Some? && reply.record.value.owner != Some(owner)) { exit := Conflict; }
    }
  }

  /** The supervised block: `rounds` complete turns of the heartbeat while the main thread waits for
      the model, then the stop, the join and, if anything went wrong, the revocation. A thread that
      outlives the join does its last write after everything else. */
  method IdempotencyHeartbeat(store: Store, tracker: Tracker, rounds: nat, cut: Cut) returns (exit: Exit)
    requires store.Valid() && Synced(store, tracker) && tracker.IsHealthy() && store.record.Some?
    modifies store, tracker
    ensures store.Valid() && store.me == old(store.me) && old(store.history) <= store.history
    ensures Evolves(old(store.View()), store.View())
    ensures exit == Normal ==> cut == Joined && tracker.IsHealthy() && Synced(store, tracker)
    ensures exit == Normal && rounds > 0 ==>
              HoldsFresh(store, tracker.owner, tracker.version) && tracker.version == old(tracker.version) + rounds
    ensures store.Smooth() && rounds > 0 && !Live(old(store.View()), tracker.owner) ==>
              && exit == Exit.Conflict
              && store.record == (if Holds(old(store.View()), tracker.owner) then Some(Revoked(old(store.record).value))
                                  else old(store.record))
    ensures exit == Conflict ==> !Holds(store.View(), tracker.owner)
    ensures exit == Unavailable ==> !store.Smooth()
    ensures store.Smooth() && cut != Joined && Live(old(store.View()), tracker.owner) ==>
              exit == Exit.Conflict && store.record.value.status == Failed
    ensures store.Smooth() ==> store.runs == old(store.runs) && store.messages == old(store.messages)
    ensures store.Smooth() && cut == Joined && Live(old(store.View()), tracker.owner) ==>
              && exit == Normal
              && Live(store.View(), tracker.owner)
              && store.View() == old(store.View()).(
                   record := Some(RenewedTimes(old(store.record).value, rounds, old(store.now))))
              && store.history == old(store.history) + Renewals(tracker.owner, old(store.record).value.version, rounds)
  {
    RunTurns(store, tracker, rounds);
    var pending := tracker.version;
    ghost var stopped := store.View();
    if cut == AfterWrite && tracker.IsHealthy() {
      RenewUnnoticed(store, tracker.owner, pending);
      EvolvesTransitive(old(store.View()), stopped, store.View());
    }
    if cut != Joined { tracker.MarkUnhealthy(JoinTimeout); }
    if tracker.IsHealthy() { return Normal; }
    ghost var before := store.View();
    exit := Revoke(store, tracker.owner);
    EvolvesTransitive(old(store.View()), before, store.View());
    if cut == BeforeWrite {
      ghost var revoked := store.View();
      RenewUnnoticed(store, tracker.owner, pending);
      EvolvesTransitive(old(store.View()), revoked, store.View());
    }
  }

  method RunTurns(store: Store, tracker: Tracker, rounds: nat)
    requires store.Valid() && Synced(store, tracker) && tracker.IsHealthy() && store.record.Some?
    modifies store, tracker
    ensures store.Valid() && store.me == old(store.me) && old(store.history) <= store.history
    ensures Evolves(old(store.View()), store.View())
    ensures tracker.IsHealthy() ==> Synced(store, tracker)
    ensures tracker.IsHealthy() && rounds > 0 ==>
              HoldsFresh(store, tracker.owner, tracker.version) && tracker.version == old(tracker.version) + rounds
    ensures store.Smooth() && !Live(old(store.View()), tracker.owner) ==>
              (rounds > 0 ==> !tracker.IsHealthy()) && store.record == old(store.record)
    ensures store.Smooth() ==> store.runs == old(store.runs) && store.messages == old(store.messages)
    ensures store.Smooth() && Live(old(store.View()), tracker.owner) ==>
              && tracker.IsHealthy()
              && Live(store.View(), tracker.owner)
              && store.View() == old(store.View()).(
                   record := Some(RenewedTimes(old(store.record).value, rounds, old(store.now))))
              && store.history == old(store.history) + Renewals(tracker.owner, old(store.record).value.version, rounds)
  {
    hide IsRun, Exec;
    var turn := 0;
    while turn < rounds && tracker.IsHealthy()
      invariant 0 <= turn <= rounds
      invariant store.Valid() && store.me == old(store.me) && old(store.history) <= store.history
      invariant Evolves(old(store.View()), store.View())
      invariant tracker.IsHealthy() ==> Synced(store, tracker) && tracker.version == old(tracker.version) + turn
      invariant tracker.IsHealthy() && turn > 0 ==> HoldsFresh(store, tracker.owner, tracker.version)
      invariant store.Smooth() && !Live(old(store.View()), tracker.owner) ==>
                  && (turn > 0 ==> !tracker.IsHealthy())
                  && store.record == old(store.record) && !Live(store.View(), tracker.owner)
      invariant store.Smooth() ==> store.runs == old(store.runs) && store.messages == old(store.messages)
      invariant store.Smooth() && Live(old(store.View()), tracker.owner) ==>
                  && tracker.IsHealthy()
                  && Live(store.View(), tracker.owner)
                  && store.View()
                     == old(store.View()).(record := Some(RenewedTimes(old(store.record).value, turn, old(store.now))))
                  && store.history
                     == old(store.history) + Renewals(tracker.owner, old(store.record).value.version, turn)
      decreases rounds - turn
    {
      ghost var mid := store.View();
      Renew(store, tracker);
      EvolvesTransitive(old(store.View()), mid, store.View());
      turn := turn + 1;
    }
  }

  // ---------------------------------------------------------------- checkpoints

  /** How a step of a request ends. */
  datatype Flow = Continue | HttpFailure(code: nat) | InternalFailure | StorageConflict

  function Stamp(owner: Owner, version: nat, status: Option<Status>, user: Option<Id>, agent: Option<Id>,
                 run: Option<Id>): Write {
    Write(Some(version), owner, status, user, agent, run,
          if status.Some? && status.value != InProgress then None else Some(LEASE_SECONDS))
  }

  /** The record after an accepted checkpoint of its owner: absent ids stay, the lease runs two minutes more unless the
      work is over. */
  function Checkpointed(r: Record, status: Option<Status>, user: Option<Id>, agent: Option<Id>, run: Option<Id>,
                        now: int): Record {
    Record(r.sender, r.payload, if status.Some? then status.value else r.status,
           if user.Some? then user else r.user, if agent.Some? then agent else r.agent,
           if run.Some? then run else r.run, r.version + 1,
           if status.Some? then None else r.owner, if status.Some? then None else Some(now + 120))
  }

  lemma StampEffect(c: Chat, owner: Owner, version: nat, status: Option<Status>, user: Option<Id>, agent: Option<Id>,
                    run: Option<Id>)
    requires Inv(c) && status != Some(InProgress) && (Holds(c, owner) ==> c.record.value.version == version)
    ensures var w := Stamp(owner, version, status, user, agent, run);
      && (UpdateAccepted(c, w) <==> Live(c, owner) || (Holds(c, owner) && status == Some(Failed)))
      && Apply(c, Update(w)) == (
           if UpdateAccepted(c, w)
           then c.(record := Some(Checkpointed(c.record.value, status, user, agent, run, c.now))) else c)
      && (UpdateAccepted(c, w) ==>
            var d := Apply(c, Update(w));
            && d.record.Some? && d.record.value.version == version + 1
            && (status.Some? ==> d.record.value.status == status.value && !Holds(d, owner))
            && (status.None? ==> Holds(d, owner) && d.record.value.leaseUntil == Some(c.now + 120)))
  {
  }

  lemma EnabledPersists(c: Chat, d: Chat, w: Write, x: Write)
    requires Enabled(c, Update(w)) && Evolves(c, d)
    requires x.status == w.status && x.user == w.user && x.agent == w.agent && x.run == w.run
    ensures Enabled(d, Update(x))
  {
  }

  method FencedCheckpoint(store: Store, tracker: Tracker, status: Option<Status>, user: Option<Id>, agent: Option<Id>,
                          run: Option<Id>)
    returns (flow: Flow)
    requires store.Valid() && Synced(store, tracker)
    requires Enabled(store.View(), Update(Stamp(tracker.owner, 0, status, user, agent, run)))
    modifies store, tracker
    ensures store.Valid() && store.me == old(store.me) && old(store.history) <= store.history
    ensures Evolves(old(store.View()), store.View())
    ensures flow.Continue? ==> Synced(store, tracker) && tracker.IsHealthy() && store.record.Some?
    ensures flow.Continue? ==> tracker.version == old(tracker.version) + 1
    ensures flow.Continue? && status.None? ==> HoldsFresh(store, tracker.owner, tracker.version)
    ensures flow == HttpFailure(409) ==> !tracker.IsHealthy()
    ensures flow.Continue? || (flow == HttpFailure(409) && old(tracker.IsHealthy())) ==>
              && |store.history| > |old(store.history)|
              && store.history[|store.history| - 1]
                 == Update(Write(Some(old(tracker.version)), tracker.owner, status, user, agent, run,
                                 if status == Some(Completed) || status == Some(Failed) then None else Some(120)))
    ensures flow.Continue? && status.Some? ==> store.record.value.status == status.value
    ensures flow == HttpFailure(409) || flow.Continue? || (flow.InternalFailure? && !store.Smooth())
    ensures store.Smooth() && Live(old(store.View()), tracker.owner) && old(tracker.IsHealthy()) ==>
              && flow.Continue?
              && store.View() == old(store.View()).(
                   record := Some(Checkpointed(old(store.record).value, status, user, agent, run, old(store.now))))
    ensures store.Smooth() && status != Some(Failed)
            && !(Live(old(store.View()), tracker.owner) && old(tracker.IsHealthy())) ==>
              flow == HttpFailure(409) && store.View() == old(store.View())
  {
    hide IsRun, Exec, Evolves, IdsGrounded, ExactlyOnce, Apply, UpdateAccepted, Checkpointed, Holds;
    EvolvesItself(store.View());
    if !tracker.IsHealthy() { return HttpFailure(409); }
    ghost var start := store.View();
    store.Interfere();
    ghost var mid := store.View();
    var w := Stamp(tracker.owner, tracker.version, status, user, agent, run);
    EnabledPersists(start, mid, Stamp(tracker.owner, 0, status, user, agent, run), w);
    StampEffect(mid, tracker.owner, tracker.version, status, user, agent, run);
    var reply := store.UpdateChatIdempotencyFenced(w);
    EvolvesStep(mid, Update(w));
    EvolvesTransitive(start, mid, store.View());
    match reply {
      case Raised => flow := InternalFailure;
      case Answer(ok, found) =>
        if !ok || found.None? {
          tracker.MarkUnhealthy(FencedOff);
          flow := HttpFailure(409);
        } else {
          tracker.UpdateVersion(found.value.version);
          flow := Continue;
        }
    }
  }
}
