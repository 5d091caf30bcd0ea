/** The idempotency record of one chat request key, the messages and the run created under it, and
    what every sequence of store operations keeps. Attempts may crash between any two operations:
    a crash is an attempt that issues no further operation. */
module ChatProtocol {
  import opened Options

  type Id = string
  type Owner = nat

  datatype Status = InProgress | Completed | Failed

  datatype Record = Record(
    sender: nat,
    payload: nat,
    status: Status,
    user: Option<Id>,
    agent: Option<Id>,
    run: Option<Id>,
    version: nat,
    owner: Option<Owner>,
    leaseUntil: Option<int>)

  /** The ids derived from the key by hashing. */
  datatype Ids = Ids(user: Id, agent: Id, run: Id)

  /** `messages` and `runs` are the objects created under the key, in order of creation, and
      `drawn` the number of lease owners
      drawn so far: the next owner drawn is `drawn` itself. */
  datatype Chat = Chat(
    ids: Ids,
    record: Option<Record>,
    messages: seq<Id>,
    runs: seq<Id>,
    now: int,
    drawn: Owner)

  /** A fenced write. `status`, ids and lease extension are left alone where absent. */
  datatype Write = Write(
    version: Option<nat>,
    owner: Owner,
    status: Option<Status>,
    user: Option<Id>,
    agent: Option<Id>,
    run: Option<Id>,
    extend: Option<int>)

  datatype Op =
    | Elapse(seconds: nat)
    | Acquire(sender: nat, payload: nat)
    | Retry
    | Update(write: Write)
    | AddMessage(id: Id)
    | SaveRun(id: Id, version: nat)

  const LEASE_SECONDS: int := 120

  function Keep<T>(given: Option<T>, stored: Option<T>): Option<T> { if given.Some? then given else stored }

  predicate Expired(r: Record, now: int) {
    r.status == InProgress && r.leaseUntil.Some? && r.leaseUntil.value < now
  }

  function TakenOver(r: Record, owner: Owner, now: int): Record {
    r.(status := InProgress, version := r.version + 1, owner := Some(owner), leaseUntil := Some(now + LEASE_SECONDS))
  }

  predicate UpdateAccepted(c: Chat, w: Write) {
    && c.record.Some?
    && var r := c.record.value;
    && r.owner == Some(w.owner)
    && (w.version.Some? ==> r.version == w.version.value)
    && (w.status == Some(Failed) || !Expired(r, c.now))
  }

  function Updated(r: Record, w: Write, now: int): Record {
    var status := if w.status.Some? then w.status.value else r.status;
    var u := r.(status := status, user := Keep(w.user, r.user), agent := Keep(w.agent, r.agent),
                run := Keep(w.run, r.run), version := r.version + 1);
    if w.extend.Some? && status == InProgress then u.(leaseUntil := Some(now + w.extend.value))
    else if status != InProgress then u.(leaseUntil := None, owner := None)
    else u
  }

  predicate SaveAccepted(c: Chat, version: nat) {
    c.record.Some? && c.record.value.version == version && !Expired(c.record.value, c.now)
  }

  predicate Accepted(c: Chat, op: Op) {
    match op
    case Elapse(_) => true
    case Acquire(_, _) => c.record.None? || Expired(c.record.value, c.now)
    case Retry => c.record.Some? && (c.record.value.status == Failed || Expired(c.record.value, c.now))
    case Update(w) => UpdateAccepted(c, w)
    case AddMessage(_) => true
    case SaveRun(_, version) => SaveAccepted(c, version)
  }

  function Apply(c: Chat, op: Op): Chat {
    match op
    case Elapse(seconds) => c.(now := c.now + seconds)
    case Acquire(sender, payload) =>
      var d := c.(drawn := c.drawn + 1);
      if c.record.None? then
        d.(record := Some(Record(sender, payload, InProgress, None, None, None, 1, Some(c.drawn),
            Some(c.now + LEASE_SECONDS))))
      else if Expired(c.record.value, c.now) then d.(record := Some(TakenOver(c.record.value, c.drawn, c.now)))
      else d
    case Retry =>
      var d := c.(drawn := c.drawn + 1);
      if Accepted(c, op) then d.(record := Some(TakenOver(c.record.value, c.drawn, c.now))) else d
    case Update(w) => if UpdateAccepted(c, w) then c.(record := Some(Updated(c.record.value, w, c.now))) else c
    case AddMessage(id) => if id in c.messages then c else c.(messages := c.messages + [id])
    case SaveRun(id, version) =>
      if SaveAccepted(c, version) && id !in c.runs then c.(runs := c.runs + [id]) else c
  }

  /** What the attempts establish before they issue an operation: ids are the
      derived ones, replies and runs follow the user message, an id is recorded only once its object
      exists, and completion is recorded only once the user message exists. The handlers in
      `ChatEndpoint` discharge each of these. */
  predicate Enabled(c: Chat, op: Op) {
    match op
    case Elapse(_) => true
    case Acquire(_, _) => true
    case Retry => true
    case Update(w) =>
      && w.status != Some(InProgress)
      && (w.user.Some? ==> w.user.value == c.ids.user && c.ids.user in c.messages)
      && (w.agent.Some? ==> w.agent.value == c.ids.agent && c.ids.agent in c.messages)
      && (w.run.Some? ==> w.run.value == c.ids.run && c.ids.run in c.runs)
      && (w.status == Some(Completed) ==> c.ids.user in c.messages)
    case AddMessage(id) => id == c.ids.user || (id == c.ids.agent && c.ids.user in c.messages)
    case SaveRun(id, _) => id == c.ids.run && c.ids.user in c.messages
  }

  // ---------------------------------------------------------------- invariant

  predicate Init(c: Chat) {
    c.record == None && c.messages == [] && c.runs == [] && c.drawn == 0
  }

  /** Each recorded id is absent or the derived one, and then its object exists. */
  predicate IdsGrounded(c: Chat, r: Record) {
    && (r.user.Some? ==> r.user.value == c.ids.user && c.ids.user in c.messages)
    && (r.agent.Some? ==> r.agent.value == c.ids.agent && c.ids.agent in c.messages)
    && (r.run.Some? ==> r.run.value == c.ids.run && c.ids.run in c.runs)
  }

  predicate RecordInv(c: Chat, r: Record) {
    && IdsGrounded(c, r)
    && (r.status == Completed ==> c.ids.user in c.messages)
    && (r.status == InProgress <==> r.owner.Some?)
    && (r.owner.Some? <==> r.leaseUntil.Some?)
    && (r.owner.Some? ==> r.owner.value < c.drawn)
    && r.version >= 1
  }

  /** At most one user message, then at most one reply, and at most one run, never before the user message. */
  predicate ExactlyOnce(c: Chat) {
    && c.messages <= [c.ids.user, c.ids.agent]
    && c.runs <= [c.ids.run]
    && (c.runs != [] ==> c.messages != [])
  }

  predicate Inv(c: Chat) {
    ExactlyOnce(c) && (c.record.Some? ==> RecordInv(c, c.record.value))
  }

  lemma PairPrefix(m: seq<Id>, a: Id, b: Id)
    requires m <= [a, b]
    ensures m == [] || m == [a] || m == [a, b]
  {
    if |m| > 0 { assert m[0] == [a, b][0]; }
    if |m| > 1 { assert m[1] == [a, b][1]; }
  }

  lemma SinglePrefix(m: seq<Id>, a: Id)
    requires m <= [a]
    ensures m == [] || m == [a]
  {
    if |m| > 0 { assert m[0] == [a][0]; }
  }

  lemma InvStep(c: Chat, op: Op)
    requires Inv(c) && Enabled(c, op)
    ensures Inv(Apply(c, op))
  {
    PairPrefix(c.messages, c.ids.user, c.ids.agent);
    SinglePrefix(c.runs, c.ids.run);
  }
}
