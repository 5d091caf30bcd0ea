/** The chat request: acquisition of the key, the work with its checkpoints, and the failure trap.
    Before every access to the store the other attempts may take any steps, and any write may be
    lost or applied without an answer. */
module ChatEndpoint {
  import opened Options
  import opened ChatProtocol
  import opened ChatRuns
  import opened ChatStore
  import opened ChatHeartbeat

  datatype Intent = PlainMessage | Discussion | Breakdown

  datatype Outcome = Response(user: Id, agent: Option<Id>, run: Option<Id>) | Failure(code: int)

  datatype Entry = Owned(record: Record) | Finished(outcome: Outcome)

  /** The model call of a breakdown: how often the heartbeat beats meanwhile, how its thread stops, and
      whether the call raises. */
  datatype Inference = Inference(beats: nat, cut: Cut, raises: bool)

  function TargetUser(ids: Ids, r: Record): Id { if r.user.Some? then r.user.value else ids.user }

  function TargetAgent(ids: Ids, r: Record): Id { if r.agent.Some? then r.agent.value else ids.agent }

  function TargetRun(ids: Ids, r: Record): Id { if r.run.Some? then r.run.value else ids.run }

  function Found(id: Id, within: seq<Id>): Option<Id> { if id in within then Some(id) else None }

  predicate Derived(ids: Ids, r: Record) {
    TargetUser(ids, r) == ids.user && TargetAgent(ids, r) == ids.agent && TargetRun(ids, r) == ids.run
  }

  /** A response that the store stands behind: the record is COMPLETED and every object handed out exists. */
  predicate Backed(c: Chat, outcome: Outcome) {
    outcome.Response? ==>
      && c.record.Some? && c.record.value.status == Completed
      && outcome.user == c.ids.user && outcome.user in c.messages
      && (outcome.agent.Some? ==> outcome.agent.value == c.ids.agent && c.ids.agent in c.messages)
      && (outcome.run.Some? ==> outcome.run.value == c.ids.run && c.ids.run in c.runs)
  }

  // ---------------------------------------------------------------- acquisition

  /** An attempt that crashed, or was too slow: its two minutes are over. */
  predicate RanOut(r: Record, now: int) {
    r.status == InProgress && r.leaseUntil.Some? && r.leaseUntil.value < now
  }

  /** The key is free for this request: new, given up by its attempt, or failed under the same sender and payload. */
  predicate IsFree(record: Option<Record>, now: int, sender: nat, payload: nat) {
    record.Some? ==>
      || RanOut(record.value, now)
      || (record.value.status == Failed && record.value.sender == sender && record.value.payload == payload)
  }

  /** What a request is answered that may neither work nor be given the result. */
  function Refusal(r: Record, sender: nat, payload: nat): Option<int> {
    if r.sender != sender then Some(403)
    else if r.payload != payload then Some(409)
    else if r.status == InProgress then Some(409)
    else None
  }

  /** What a completed key hands out: whatever objects there are under it. */
  function Completion(c: Chat): Outcome {
    Response(c.ids.user, if c.ids.agent in c.messages then Some(c.ids.agent) else None,
             if c.ids.run in c.runs then Some(c.ids.run) else None)
  }

  /** The record a new attempt finds itself working under. */
  function Reopened(record: Option<Record>, sender: nat, payload: nat, owner: Option<Owner>, now: int): Record {
    match record
    case None => Record(sender, payload, InProgress, None, None, None, 1, owner, Some(now + 120))
    case Some(r) => r.(status := InProgress, version := r.version + 1, owner := owner, leaseUntil := Some(now + 120))
  }

  method Enter(store: Store, sender: nat, payload: nat) returns (entry: Entry, path: Path)
    requires store.Valid() && store.me == None
    modifies store
    ensures store.Valid() && old(store.history) <= store.history
    ensures Evolves(old(store.View()), store.View()) && store.record.Some?
    ensures entry.Owned? ==> store.me.Some? && store.record == Some(entry.record) && entry.record.owner == store.me
                             && Live(store.View(), store.me.value) && Derived(store.ids, entry.record)
    ensures entry.Owned? <==> path != NotAcquired
    ensures entry.Owned? ==> Entered(store.origin, store.history, store.me.value, path)
    ensures entry.Owned? && path != TookOver ==> entry.record.sender == sender && entry.record.payload == payload
    ensures entry.Finished? ==> Backed(store.View(), entry.outcome)
    ensures entry.Finished? && entry.outcome.Response? ==>
              store.record.value.sender == sender && store.record.value.payload == payload
    ensures store.Smooth() ==> store.now == old(store.now)
    ensures store.Smooth() ==> store.runs == old(store.runs) && store.messages == old(store.messages)
    ensures store.Smooth() && IsFree(old(store.record), old(store.now), sender, payload) ==>
              && store.record == Some(Reopened(old(store.record), sender, payload, store.me, old(store.now)))
              && path == (if old(store.record).None? then FirstAttempt
                          else if old(store.record).value.status == Failed then Retried else TookOver)
    ensures store.Smooth() && !IsFree(old(store.record), old(store.now), sender, payload) ==>
              && entry.Finished? && store.record == old(store.record)
              && var refusal := Refusal(old(store.record).value, sender, payload);
                 entry.outcome == if refusal.Some? then Failure(refusal.value) else Completion(old(store.View()))
  {
    hide IsRun, Exec;
    store.Interfere();
    ghost var before := store.View();
    ghost var history := store.history;
    var acquired, existing := store.AcquireChatIdempotency(sender, payload);
    EvolvesStep(before, Acquire(sender, payload));
    EvolvesTransitive(old(store.View()), before, store.View());
    if acquired {
      path := if existing.version == 1 then FirstAttempt else TookOver;
      EntersNow(store.origin, history, Acquire(sender, payload), before.drawn, path);
      return Owned(existing), path;
    }
    path := NotAcquired;
    if existing.sender != sender {
      entry := Finished(Failure(403));
    } else if existing.payload != payload {
      entry := Finished(Failure(409));
    } else if existing.status == Completed {
      entry := Replay(store, existing);
    } else if existing.status == InProgress {
      entry := Finished(Failure(409));
    } else {
      ghost var seen := store.View();
      entry := RetryFailed(store);
      EvolvesTransitive(old(store.View()), seen, store.View());
      if entry.Owned? { path := Retried; }
    }
  }

  method Replay(store: Store, existing: Record) returns (entry: Entry)
    requires store.Valid() && store.record == Some(existing) && existing.status == Completed
    ensures entry == Finished(Completion(store.View())) && Backed(store.View(), entry.outcome)
  {
    var user := TargetUser(store.ids, existing);
    entry := Finished(
      if user in store.messages
      then Response(user, Found(TargetAgent(store.ids, existing), store.messages),
                    Found(TargetRun(store.ids, existing), store.runs))
      else Failure(500));
  }

  method RetryFailed(store: Store) returns (entry: Entry)
    requires store.Valid() && store.me == None && store.record.Some?
    modifies store
    ensures store.Valid() && old(store.history) <= store.history
    ensures Evolves(old(store.View()), store.View())
    ensures entry.Owned? ==> store.me.Some? && store.record == Some(entry.record) && entry.record.owner == store.me
                             && Live(store.View(), store.me.value) && Derived(store.ids, entry.record)
    ensures entry.Owned? ==> Entered(store.origin, store.history, store.me.value, Retried)
    ensures entry.Finished? ==> entry.outcome == Failure(409)
    ensures store.Smooth() ==> store.now == old(store.now)
    ensures store.Smooth() ==> store.runs == old(store.runs) && store.messages == old(store.messages)
    ensures store.Smooth() && old(store.record).value.status == Failed ==>
              entry == Owned(Reopened(old(store.record), 0, 0, store.me, old(store.now)))
  {
    store.Interfere();
    ghost var before := store.View();
    ghost var history := store.history;
    var transitioned := store.TransitionFailedToInProgress();
    if transitioned { EntersNow(store.origin, history, Retry, before.drawn, Retried); }
    EvolvesStep(before, Retry);
    EvolvesTransitive(old(store.View()), before, store.View());
    entry := if transitioned && store.record.Some? then Owned(store.record.value) else Finished(Failure(409));
  }

  // ---------------------------------------------------------------- the work

  /** A message found, or inserted and then recorded. */
  function Posted(c: Chat, id: Id, user: Option<Id>, agent: Option<Id>): Chat {
    if id in c.messages || c.record.None? then c
    else c.(messages := c.messages + [id],
            record := Some(Checkpointed(c.record.value, None, user, agent, None, c.now)))
  }

  /** A run found, or made while the heartbeat beat so often, saved and then recorded. */
  function Ran(c: Chat, beats: nat): Chat {
    if c.ids.run in c.runs || c.record.None? then c
    else c.(runs := c.runs + [c.ids.run],
            record := Some(Checkpointed(RenewedTimes(c.record.value, beats, c.now), None, None, None, Some(c.ids.run),
                                        c.now)))
  }

  function Closed(c: Chat, agent: Option<Id>, run: Option<Id>): Chat {
    if c.record.None? then c
    else c.(record := Some(Checkpointed(c.record.value, Some(Completed), None, agent, run, c.now)))
  }

  /** What an undisturbed attempt leaves. */
  function Worked(c: Chat, intent: Intent, beats: nat): Chat {
    var posted := Posted(c, c.ids.user, Some(c.ids.user), None);
    match intent
    case PlainMessage => Closed(posted, None, None)
    case Discussion =>
      Closed(Posted(posted, c.ids.agent, None, Some(c.ids.agent)), Some(c.ids.agent), None)
    case Breakdown =>
      Closed(Posted(Ran(posted, beats), c.ids.agent, None, Some(c.ids.agent)), Some(c.ids.agent), Some(c.ids.run))
  }

  method UserStep(store: Store, tracker: Tracker, claimed: Record) returns (flow: Flow)
    requires store.Valid() && Synced(store, tracker) && tracker.IsHealthy() && Derived(store.ids, claimed)
    modifies store, tracker
    ensures store.Valid() && store.me == old(store.me) && old(store.history) <= store.history
    ensures Evolves(old(store.View()), store.View())
    ensures flow.Continue? ==> Synced(store, tracker) && tracker.IsHealthy() && store.ids.user in store.messages
    ensures !flow.StorageConflict?
    ensures store.Smooth() && Live(old(store.View()), tracker.owner) ==>
              && flow.Continue? && Live(store.View(), tracker.owner)
              && store.View() == Posted(old(store.View()), store.ids.user, Some(store.ids.user), None)
  {
    hide IsRun, Exec, HoldsFresh, IdsGrounded, ExactlyOnce;
    store.Interfere();
    ghost var read := store.View();
    var target := TargetUser(store.ids, claimed);
    if target in store.messages { return Continue; }
    store.Interfere();
    ghost var before := store.View();
    EvolvesTransitive(old(store.View()), read, before);
    var added := store.InsertMessage(target);
    EvolvesStep(before, AddMessage(target));
    ghost var after := store.View();
    EvolvesTransitive(old(store.View()), before, after);
    if !added { return InternalFailure; }
    flow := FencedCheckpoint(store, tracker, None, Some(target), None, None);
    EvolvesTransitive(old(store.View()), after, store.View());
  }

  method AgentStep(store: Store, tracker: Tracker, claimed: Record) returns (flow: Flow)
    requires store.Valid() && Synced(store, tracker) && tracker.IsHealthy() && Derived(store.ids, claimed)
    requires store.ids.user in store.messages
    modifies store, tracker
    ensures store.Valid() && store.me == old(store.me) && old(store.history) <= store.history
    ensures Evolves(old(store.View()), store.View())
    ensures flow.Continue? ==> Synced(store, tracker) && tracker.IsHealthy() && store.ids.agent in store.messages
    ensures !flow.StorageConflict?
    ensures store.Smooth() && Live(old(store.View()), tracker.owner) ==>
              && flow.Continue? && Live(store.View(), tracker.owner)
              && store.View() == Posted(old(store.View()), store.ids.agent, None, Some(store.ids.agent))
  {
    hide IsRun, Exec, HoldsFresh, IdsGrounded, ExactlyOnce;
    store.Interfere();
    ghost var read := store.View();
    var target := TargetAgent(store.ids, claimed);
    if target in store.messages { return Continue; }
    store.Interfere();
    ghost var before := store.View();
    EvolvesTransitive(old(store.View()), read, before);
    var added := store.InsertMessage(target);
    EvolvesStep(before, AddMessage(target));
    ghost var after := store.View();
    EvolvesTransitive(old(store.View()), before, after);
    if !added { return InternalFailure; }
    flow := FencedCheckpoint(store, tracker, None, None, Some(target), None);
    EvolvesTransitive(old(store.View()), after, store.View());
  }

  method RunStep(store: Store, tracker: Tracker, claimed: Record, inference: Inference) returns (flow: Flow)
    requires store.Valid() && Synced(store, tracker) && tracker.IsHealthy() && Derived(store.ids, claimed)
    requires store.ids.user in store.messages && store.record.Some?
    modifies store, tracker
    ensures store.Valid() && store.me == old(store.me) && old(store.history) <= store.history
    ensures Evolves(old(store.View()), store.View())
    ensures flow.Continue? ==> Synced(store, tracker) && tracker.IsHealthy() && store.ids.run in store.runs
    ensures flow.HttpFailure? ==> flow.code in {409, 503}
    ensures flow.StorageConflict? ==> EndsInRefusedSave(store.origin, store.history, store.ids.run)
    ensures inference.cut != Joined ==> flow.HttpFailure? || flow.Continue?
    ensures store.Smooth() && store.ids.run !in old(store.runs) && inference.cut != Joined ==>
              flow == HttpFailure(409)
              && (Live(old(store.View()), tracker.owner) ==> store.record.value.status == Failed)
    ensures store.Smooth() && store.ids.run !in old(store.runs) && inference.cut == Joined && inference.raises
            && Live(old(store.View()), tracker.owner) ==>
              flow.InternalFailure? && Live(store.View(), tracker.owner)
    ensures store.Smooth() && Live(old(store.View()), tracker.owner) && inference.cut == Joined && !inference.raises ==>
              && flow.Continue? && Live(store.View(), tracker.owner)
              && store.View() == Ran(old(store.View()), inference.beats)
    ensures store.Smooth() && store.ids.run in old(store.runs) ==> flow.Continue? && store.View() == old(store.View())
  {
    hide IsRun, HoldsFresh;
    store.Interfere();
    ghost var read := store.View();
    var target := TargetRun(store.ids, claimed);
    if target in store.runs { return Continue; }
    var exit := IdempotencyHeartbeat(store, tracker, inference.beats, inference.cut);
    ghost var beaten := store.View();
    EvolvesTransitive(old(store.View()), read, beaten);
    if exit == Exit.Conflict { return HttpFailure(409); }
    if exit == Unavailable { return HttpFailure(503); }
    if inference.raises { return InternalFailure; }
    flow := SaveAndRecordRun(store, tracker, target);
    EvolvesTransitive(old(store.View()), beaten, store.View());
  }

  method SaveAndRecordRun(store: Store, tracker: Tracker, target: Id) returns (flow: Flow)
    requires store.Valid() && Synced(store, tracker) && tracker.IsHealthy()
    requires target == store.ids.run && store.ids.user in store.messages
    modifies store, tracker
    ensures store.Valid() && store.me == old(store.me) && old(store.history) <= store.history
    ensures Evolves(old(store.View()), store.View())
    ensures flow.Continue? ==> Synced(store, tracker) && tracker.IsHealthy() && store.ids.run in store.runs
    ensures flow.HttpFailure? ==> flow.code == 409
    ensures flow.StorageConflict? ==> EndsInRefusedSave(store.origin, store.history, store.ids.run)
    ensures store.Smooth() && !SaveAccepted(old(store.View()), old(tracker.version)) ==> flow.StorageConflict?
    ensures store.Smooth() && Live(old(store.View()), tracker.owner) ==>
              && flow.Continue? && Live(store.View(), tracker.owner)
              && (target !in old(store.runs) ==> store.View() == Ran(old(store.View()), 0))
  {
    hide IsRun, HoldsFresh;
    store.Interfere();
    ghost var before, history := store.View(), store.history;
    var reply := store.SaveRunFenced(target, tracker.version);
    EvolvesStep(before, SaveRun(target, tracker.version));
    ghost var after := store.View();
    EvolvesTransitive(old(store.View()), before, after);
    if reply.Raised? { return InternalFailure; }
    if !reply.ok {
      assert store.history[..|history|] == history;
      return StorageConflict;
    }
    flow := FencedCheckpoint(store, tracker, None, None, None, Some(target));
    EvolvesTransitive(old(store.View()), after, store.View());
  }

  /** The final checkpoint. */
  method Complete(store: Store, tracker: Tracker, agent: Option<Id>, run: Option<Id>) returns (flow: Flow)
    requires store.Valid() && Synced(store, tracker) && store.ids.user in store.messages
    requires Enabled(store.View(), Update(Stamp(tracker.owner, 0, Some(Completed), None, agent, run)))
    modifies store, tracker
    ensures store.Valid() && store.me == old(store.me) && old(store.history) <= store.history
    ensures Evolves(old(store.View()), store.View())
    ensures flow.Continue? ==> store.record.Some? && store.record.value.status == Completed
    ensures !flow.StorageConflict?
    ensures store.Smooth() && Live(old(store.View()), tracker.owner) && old(tracker.IsHealthy()) ==>
              flow.Continue? && store.View() == Closed(old(store.View()), agent, run)
  {
    hide IsRun, HoldsFresh;
    flow := FencedCheckpoint(store, tracker, Some(Completed), None, agent, run);
  }

  method Discuss(store: Store, tracker: Tracker, claimed: Record, withRun: bool) returns (flow: Flow)
    requires store.Valid() && Synced(store, tracker) && tracker.IsHealthy() && Derived(store.ids, claimed)
    requires store.ids.user in store.messages && (withRun ==> store.ids.run in store.runs)
    modifies store, tracker
    ensures store.Valid() && store.me == old(store.me) && old(store.history) <= store.history
    ensures Evolves(old(store.View()), store.View())
    ensures flow.Continue? ==>
              store.record.Some? && store.record.value.status == Completed && store.ids.agent in store.messages
    ensures !flow.StorageConflict?
    ensures store.Smooth() && Live(old(store.View()), tracker.owner) ==>
              && flow.Continue?
              && store.View() == Closed(Posted(old(store.View()), store.ids.agent, None, Some(store.ids.agent)),
                                        Some(store.ids.agent), if withRun then Some(store.ids.run) else None)
  {
    flow := AgentStep(store, tracker, claimed);
    if flow != Continue { return; }
    ghost var replied := store.View();
    flow := Complete(store, tracker, Some(store.ids.agent), if withRun then Some(store.ids.run) else None);
    EvolvesTransitive(old(store.View()), replied, store.View());
  }

  method Work(store: Store, tracker: Tracker, intent: Intent, claimed: Record, inference: Inference)
    returns (flow: Flow)
    requires store.Valid() && Synced(store, tracker) && tracker.IsHealthy() && Derived(store.ids, claimed)
    requires store.record.Some?
    modifies store, tracker
    ensures store.Valid() && store.me == old(store.me) && old(store.history) <= store.history
    ensures Evolves(old(store.View()), store.View())
    ensures flow.Continue? ==> Backed(store.View(), Handed(store.ids, intent))
    ensures flow.StorageConflict? ==> EndsInRefusedSave(store.origin, store.history, store.ids.run)
    ensures store.Smooth() && Live(old(store.View()), tracker.owner) && Undisturbed(intent, inference) ==>
              flow.Continue? && store.View() == Worked(old(store.View()), intent, inference.beats)
    ensures store.Smooth() && Live(old(store.View()), tracker.owner) && store.ids.run !in old(store.runs)
            && intent == Breakdown && inference.cut != Joined ==>
              flow == HttpFailure(409) && store.record.value.status == Failed
    ensures store.Smooth() && Live(old(store.View()), tracker.owner) && store.ids.run !in old(store.runs)
            && intent == Breakdown && inference.cut == Joined && inference.raises ==>
              flow.InternalFailure? && Live(store.View(), tracker.owner)
  {
    hide IsRun, HoldsFresh;
    flow := UserStep(store, tracker, claimed);
    if flow != Continue { return; }
    ghost var posted := store.View();
    if intent == PlainMessage {
      flow := Complete(store, tracker, None, None);
      EvolvesTransitive(old(store.View()), posted, store.View());
      return;
    }
    if intent == Breakdown {
      flow := RunStep(store, tracker, claimed, inference);
      EvolvesTransitive(old(store.View()), posted, store.View());
      if flow != Continue { return; }
    }
    ghost var ran := store.View();
    flow := Discuss(store, tracker, claimed, intent == Breakdown);
    EvolvesTransitive(old(store.View()), ran, store.View());
  }

  /** The model answers, and its heartbeat stops in time; without a breakdown there is neither. */
  predicate Undisturbed(intent: Intent, inference: Inference) {
    intent == Breakdown ==> inference.cut == Joined && !inference.raises
  }

  /** What a request of this kind hands out. */
  function Handed(ids: Ids, intent: Intent): Outcome {
    Response(ids.user, if intent == PlainMessage then None else Some(ids.agent),
             if intent == Breakdown then Some(ids.run) else None)
  }

  /** Marks the record FAILED on the owner's authority; a storage conflict skips it. `landed` says the
      store's answer arrived. */
  method Trap(store: Store, owner: Owner, flow: Flow) returns (landed: bool)
    requires store.Valid() && store.me == Some(owner)
    modifies store
    ensures store.Valid() && store.me == old(store.me) && old(store.history) <= store.history
    ensures Evolves(old(store.View()), store.View())
    ensures landed ==> !Holds(store.View(), owner)
    ensures store.Smooth() && flow != StorageConflict && Holds(old(store.View()), owner) ==>
              store.View() == old(store.View()).(record := Some(Revoked(old(store.record).value)))
    ensures store.Smooth() && !Holds(old(store.View()), owner) ==> store.View() == old(store.View())
    ensures store.Reliable() && flow != StorageConflict ==> landed
    ensures flow == StorageConflict ==> !landed && store.history == old(store.history)
  {
    if flow == StorageConflict { return false; }
    store.Interfere();
    ghost var before := store.View();
    var reply := store.UpdateChatIdempotencyFenced(Revocation(owner));
    EvolvesStep(before, Update(Revocation(owner)));
    EvolvesTransitive(old(store.View()), before, store.View());
    landed := reply.Answer?;
  }

  function StatusOf(flow: Flow): int {
    match flow
    case HttpFailure(code) => code
    case StorageConflict => 409
    case _ => 500
  }

  lemma WorkDrawsNobody(c: Chat, intent: Intent, beats: nat)
    ensures Worked(c, intent, beats).drawn == c.drawn
  {
  }

  method ExecuteChat(store: Store, sender: nat, payload: nat, intent: Intent, inference: Inference)
    returns (outcome: Outcome, path: Path, landed: bool, ghost flow: Flow)
    requires store.Valid() && store.me == None
    modifies store
    ensures store.Valid() && old(store.history) <= store.history
    ensures path != NotAcquired ==> store.me.Some? && Entered(store.origin, store.history, store.me.value, path)
    ensures Backed(store.View(), outcome)
    ensures outcome.Response? && path != TookOver ==>
              store.record.value.sender == sender && store.record.value.payload == payload
    ensures landed ==> outcome.Failure? && store.me.Some? && !Holds(store.View(), store.me.value)
    ensures outcome.Failure? && path != NotAcquired && store.Reliable() && flow != StorageConflict ==> landed
    ensures path != NotAcquired && flow != Continue ==>
              outcome == Failure(match flow case HttpFailure(code) => code case InternalFailure => 500 case _ => 409)
    ensures path != NotAcquired && flow == StorageConflict ==>
              EndsInRefusedSave(store.origin, store.history, store.ids.run)
    ensures store.Smooth() && IsFree(old(store.record), old(store.now), sender, payload)
            && Undisturbed(intent, inference) ==>
              && path != NotAcquired
              && outcome == Response(store.ids.user, if intent == PlainMessage then None else Some(store.ids.agent),
                                     if intent == Breakdown then Some(store.ids.run) else None)
              && store.View() == Worked(
                   old(store.View()).(record := Some(Reopened(old(store.record), sender, payload, store.me,
                                                              old(store.now))),
                                      drawn := store.drawn),
                   intent, inference.beats)
    ensures store.Smooth() && IsFree(old(store.record), old(store.now), sender, payload) && intent == Breakdown
            && store.ids.run !in old(store.runs) && (inference.cut != Joined || inference.raises) ==>
              && outcome == Failure(if inference.cut != Joined then 409 else 500)
              && store.record.Some? && store.record.value.status == Failed
    ensures store.Smooth() && !IsFree(old(store.record), old(store.now), sender, payload) ==>
              && store.record == old(store.record)
              && var refusal := Refusal(old(store.record).value, sender, payload);
                 outcome == if refusal.Some? then Failure(refusal.value) else Completion(old(store.View()))
  {
    hide IsRun, Exec, Worked, IsFree, Refusal, Completion, Entered;
    landed, flow := false, Continue;
    var entry;
    entry, path := Enter(store, sender, payload);
    if entry.Finished? { return entry.outcome, path, false, flow; }
    var owner := store.me.value;
    ghost var entered := store.history;
    var tracker := new Tracker(entry.record.version, owner);
    ghost var reopened := store.View();
    WorkDrawsNobody(reopened, intent, inference.beats);
    var step := Work(store, tracker, intent, entry.record, inference);
    flow := step;
    if step == Continue {
      EnteredStays(store.origin, entered, store.history, owner, path);
      return Handed(store.ids, intent), path, false, flow;
    }
    landed := Trap(store, owner, step);
    EnteredStays(store.origin, entered, store.history, owner, path);
    outcome := Failure(StatusOf(step));
  }

  // ---------------------------------------------------------------- a gap

  /** A takeover does not compare payloads: after a crash, a request that reuses the key with another
      payload is given the record of the first. Every other way in compares them (`Enter`). */
  lemma TakeoverIgnoresPayload(c: Chat, sender: nat, payload: nat)
    requires Inv(c) && c.record.Some?
    ensures Accepted(c, Acquire(sender, payload)) <==> Expired(c.record.value, c.now)
    ensures Accepted(c, Acquire(sender, payload)) ==>
              var r := Apply(c, Acquire(sender, payload)).record.value;
              r.owner == Some(c.drawn) && r.payload == c.record.value.payload && r.status == InProgress
  {
  }

  const USER: Id := "msg_user"

  /** Two requests reuse a key with payloads 1 and 2; the first one crashes after its message. */
  const REUSED: seq<Op> := [Acquire(7, 1), AddMessage(USER), Elapse(LEASE_SECONDS + 1), Acquire(7, 2)]

  function Fresh(): Chat { Chat(Ids(USER, "msg_agent", "run"), None, [], [], 0, 0) }

  function SecondCompletion(): Op { Update(Write(Some(2), 1, Some(Completed), None, None, None, None)) }

  lemma ReusedIsReached()
    ensures Init(Fresh()) && IsRun(Fresh(), REUSED) && Enabled(Exec(Fresh(), REUSED), SecondCompletion())
    ensures Exec(Fresh(), REUSED)
              == Chat(Fresh().ids, Some(Record(7, 1, InProgress, None, None, None, 2, Some(1), Some(241))), [USER], [],
                      121, 2)
    ensures Entered(Fresh(), REUSED, 1, TookOver)
  {
    var c0, o0 := Fresh(), [];
    var o1, c1 := o0 + [Acquire(7, 1)], Apply(c0, Acquire(7, 1));
    IsRunExtends(c0, o0, Acquire(7, 1));
    var o2, c2 := o1 + [AddMessage(USER)], Apply(c1, AddMessage(USER));
    IsRunExtends(c0, o1, AddMessage(USER));
    var o3, c3 := o2 + [Elapse(LEASE_SECONDS + 1)], Apply(c2, Elapse(LEASE_SECONDS + 1));
    IsRunExtends(c0, o2, Elapse(LEASE_SECONDS + 1));
    IsRunExtends(c0, o3, Acquire(7, 2));
    EntersNow(c0, o3, Acquire(7, 2), 1, TookOver);
    assert o3 + [Acquire(7, 2)] == REUSED;
  }

  /** The second request completes the first one's record: the key then answers the first payload, and even the
      second request's own repetition is refused as a conflict. */
  lemma ReusedKeyKeepsFirstPayload()
    ensures Init(Fresh()) && IsRun(Fresh(), REUSED + [SecondCompletion()])
    ensures Entered(Fresh(), REUSED, 1, TookOver) && REUSED[3] == Acquire(7, 2)
    ensures Accepted(Exec(Fresh(), REUSED), SecondCompletion())
    ensures var c := Exec(Fresh(), REUSED + [SecondCompletion()]);
            && c.record.Some? && c.record.value.status == Completed && c.record.value.payload == 1
            && !Accepted(c, Acquire(7, 2)) && c.messages == [USER]
  {
    ReusedIsReached();
    IsRunExtends(Fresh(), REUSED, SecondCompletion());
  }
}
