/** The dual sliding-window limiter of backend/app/services/diagnosis_service.py, against a log that forgets nothing. */
module Limiter {
  /** One request: who asked, for which space, and what the clock read before the lock was taken. */
  datatype Call = Call(space: string, user: string, at: real)

  datatype Key = User(name: string) | Space(name: string)

  datatype Outcome = Allowed | UserLimited | SpaceLimited

  datatype Limits = Limits(user: int, space: int)

  const WINDOW: real := 60.0

  predicate Concerns(call: Call, key: Key) {
    match key
    case User(name) => call.user == name
    case Space(name) => call.space == name
  }

  function LimitOf(limits: Limits, key: Key): int {
    match key
    case User(_) => limits.user
    case Space(_) => limits.space
  }

  /** A limit below one admits nobody. */
  function Most(limits: Limits, key: Key): nat {
    if LimitOf(limits, key) < 0 then 0 else LimitOf(limits, key)
  }

  // ----- the specification: decide by counting in the full log -----

  /** How many logged requests of the key were made in [from, to]. */
  function Count(log: seq<Call>, key: Key, from: real, to: real): nat {
    if log == [] then 0
    else
      var last := log[|log| - 1];
      Count(log[..|log| - 1], key, from, to) + (if Concerns(last, key) && from <= last.at <= to then 1 else 0)
  }

  predicate Full(log: seq<Call>, key: Key, now: real, limits: Limits) {
    Count(log, key, now - WINDOW, now) >= LimitOf(limits, key)
  }

  function Decide(log: seq<Call>, call: Call, limits: Limits): Outcome {
    if Full(log, User(call.user), call.at, limits) then UserLimited
    else if Full(log, Space(call.space), call.at, limits) then SpaceLimited
    else Allowed
  }

  /** The requests a limiter that keeps everything would have let through. */
  function Accepted(calls: seq<Call>, limits: Limits): seq<Call> {
    if calls == [] then []
    else
      var call := calls[|calls| - 1];
      var log := Accepted(calls[..|calls| - 1], limits);
      if Decide(log, call, limits) == Allowed then log + [call] else log
  }

  ghost predicate Ordered(calls: seq<Call>) {
    forall i, j :: 0 <= i < j < |calls| ==> calls[i].at <= calls[j].at
  }

  ghost predicate AllBy(log: seq<Call>, now: real) {
    forall i :: 0 <= i < |log| ==> log[i].at <= now
  }

  lemma {:induction false} CountGrowsWithTheWindow(log: seq<Call>, key: Key, from: real, to: real, from': real,
                                                   to': real)
    requires from' <= from
    requires AllBy(log, to') || to <= to'
    ensures Count(log, key, from, to) <= Count(log, key, from', to')
  {
    if log != [] {
      CountGrowsWithTheWindow(log[..|log| - 1], key, from, to, from', to');
    }
  }

  /** The accepted requests are some of the calls, in the order they came. */
  lemma {:induction false} AcceptedIsOrdered(calls: seq<Call>, limits: Limits, now: real)
    requires Ordered(calls) && AllBy(calls, now)
    ensures Ordered(Accepted(calls, limits)) && AllBy(Accepted(calls, limits), now)
  {
    if calls != [] {
      AcceptedIsOrdered(calls[..|calls| - 1], limits, calls[|calls| - 1].at);
    }
  }

  lemma OneMore(log: seq<Call>, call: Call, key: Key, from: real, to: real)
    ensures Count(log + [call], key, from, to)
         == Count(log, key, from, to) + (if Concerns(call, key) && from <= call.at <= to then 1 else 0)
    ensures Times(log + [call], key) == Times(log, key) + (if Concerns(call, key) then [call.at] else [])
  {
    assert (log + [call])[..|log|] == log;
  }

  lemma AllowedHadRoom(log: seq<Call>, call: Call, key: Key, limits: Limits)
    requires Decide(log, call, limits) == Allowed && Concerns(call, key)
    ensures Count(log, key, call.at - WINDOW, call.at) < LimitOf(limits, key)
  {
    assert key == User(call.user) || key == Space(call.space);
  }

  lemma OneMoreFits(log: seq<Call>, call: Call, limits: Limits, key: Key, start: real)
    requires AllBy(log, call.at) && Decide(log, call, limits) == Allowed
    requires Count(log, key, start, start + WINDOW) <= Most(limits, key)
    ensures Count(log + [call], key, start, start + WINDOW) <= Most(limits, key)
  {
    OneMore(log, call, key, start, start + WINDOW);
    if Concerns(call, key) && start <= call.at <= start + WINDOW {
      CountGrowsWithTheWindow(log, key, start, start + WINDOW, call.at - WINDOW, call.at);
      AllowedHadRoom(log, call, key, limits);
    }
  }

  /** No closed stretch of sixty seconds holds more accepted requests of a user, or of a space, than its limit. */
  lemma {:induction false} NoWindowOverflows(calls: seq<Call>, limits: Limits, key: Key, start: real)
    requires Ordered(calls)
    ensures Count(Accepted(calls, limits), key, start, start + WINDOW) <= Most(limits, key)
  {
    if calls != [] {
      var call, before := calls[|calls| - 1], calls[..|calls| - 1];
      NoWindowOverflows(before, limits, key, start);
      AcceptedIsOrdered(before, limits, call.at);
      if Decide(Accepted(before, limits), call, limits) == Allowed {
        OneMoreFits(Accepted(before, limits), call, limits, key, start);
      }
    }
  }

  // ----- the deques -----

  /** The request times of the key, oldest first. */
  function Times(log: seq<Call>, key: Key): seq<real> {
    if log == [] then []
    else
      var last := log[|log| - 1];
      Times(log[..|log| - 1], key) + (if Concerns(last, key) then [last.at] else [])
  }

  function Pruned(times: seq<real>, cutoff: real): seq<real> {
    if times != [] && times[0] < cutoff then Pruned(times[1..], cutoff) else times
  }

  lemma {:induction false} PrunedIsNoLonger(times: seq<real>, cutoff: real)
    ensures |Pruned(times, cutoff)| <= |times|
  {
    if times != [] && times[0] < cutoff { PrunedIsNoLonger(times[1..], cutoff); }
  }

  /** The deque is the log's times without some that had left the window by the given reading. */
  ghost predicate Kept(times: seq<real>, deque: seq<real>, now: real) {
    && |deque| <= |times|
    && times[|times| - |deque|..] == deque
    && forall i :: 0 <= i < |times| - |deque| ==> times[i] < now - WINDOW
  }

  lemma {:induction false} TimesAreOrdered(log: seq<Call>, key: Key, now: real)
    requires Ordered(log) && AllBy(log, now)
    ensures forall i :: 0 <= i < |Times(log, key)| ==> Times(log, key)[i] <= now
    ensures forall i, j :: 0 <= i < j < |Times(log, key)| ==> Times(log, key)[i] <= Times(log, key)[j]
  {
    if log != [] {
      TimesAreOrdered(log[..|log| - 1], key, log[|log| - 1].at);
    }
  }

  lemma {:induction false} CountIsATail(log: seq<Call>, key: Key, now: real, k: nat)
    requires AllBy(log, now) && k <= |Times(log, key)|
    requires forall i :: 0 <= i < k ==> Times(log, key)[i] < now - WINDOW
    requires forall i :: k <= i < |Times(log, key)| ==> now - WINDOW <= Times(log, key)[i]
    ensures Count(log, key, now - WINDOW, now) == |Times(log, key)| - k
  {
    if log != [] {
      var times, rest := Times(log, key), Times(log[..|log| - 1], key);
      assert forall i :: 0 <= i < |rest| ==> rest[i] == times[i];
      if Concerns(log[|log| - 1], key) {
        assert times[|times| - 1] == log[|log| - 1].at;
      }
      CountIsATail(log[..|log| - 1], key, now, if k <= |rest| then k else |rest|);
    }
  }

  lemma {:induction false} PrunedIsATail(times: seq<real>, cutoff: real)
    ensures |Pruned(times, cutoff)| <= |times|
    ensures Pruned(times, cutoff) == times[|times| - |Pruned(times, cutoff)|..]
    ensures forall i :: 0 <= i < |times| - |Pruned(times, cutoff)| ==> times[i] < cutoff
    ensures Pruned(times, cutoff) != [] ==> cutoff <= Pruned(times, cutoff)[0]
  {
    if times != [] && times[0] < cutoff {
      PrunedIsATail(times[1..], cutoff);
    }
  }

  lemma KeptAfterPruning(times: seq<real>, deque: seq<real>, earlier: real, now: real)
    requires earlier <= now && Kept(times, deque, earlier)
    requires forall i, j :: 0 <= i < j < |times| ==> times[i] <= times[j]
    ensures Kept(times, Pruned(deque, now - WINDOW), now)
    ensures forall i :: |times| - |Pruned(deque, now - WINDOW)| <= i < |times| ==> now - WINDOW <= times[i]
  {
    var left, gone := Pruned(deque, now - WINDOW), |times| - |deque|;
    PrunedIsATail(deque, now - WINDOW);
    assert forall i :: 0 <= i < |deque| ==> deque[i] == times[gone + i];
    assert forall i :: gone <= i < |times| - |left| ==> times[i] == deque[i - gone];
    assert left == times[|times| - |left|..];
    if left != [] { assert left[0] == times[|times| - |left|]; }
  }

  /** With the clock running forward, what is left of the deque after pruning is the full log's window. */
  lemma PruningCounts(log: seq<Call>, key: Key, deque: seq<real>, earlier: real, now: real)
    requires Ordered(log) && AllBy(log, now) && earlier <= now
    requires Kept(Times(log, key), deque, earlier)
    ensures Kept(Times(log, key), Pruned(deque, now - WINDOW), now)
    ensures |Pruned(deque, now - WINDOW)| == Count(log, key, now - WINDOW, now)
  {
    TimesAreOrdered(log, key, now);
    KeptAfterPruning(Times(log, key), deque, earlier, now);
    CountIsATail(log, key, now, |Times(log, key)| - |Pruned(deque, now - WINDOW)|);
  }

  function Verdict(userDeque: seq<real>, spaceDeque: seq<real>, limits: Limits): Outcome {
    if |userDeque| >= limits.user then UserLimited
    else if |spaceDeque| >= limits.space then SpaceLimited
    else Allowed
  }

  /** What one call leaves in the deque of a key: nothing but the pruning shows when it was turned away. */
  function Touched(deque: seq<real>, call: Call, key: Key, outcome: Outcome): seq<real> {
    if !Concerns(call, key) then deque
    else
      var left := Pruned(deque, call.at - WINDOW);
      if outcome == Allowed then left + [call.at] else left
  }

  ghost predicate InStep(calls: seq<Call>, log: seq<Call>, key: Key, deque: seq<real>) {
    if calls == [] then deque == [] else Kept(Times(log, key), deque, calls[|calls| - 1].at)
  }

  lemma WindowIsCounted(calls: seq<Call>, call: Call, key: Key, deque: seq<real>, limits: Limits)
    requires Ordered(calls + [call]) && InStep(calls, Accepted(calls, limits), key, deque)
    ensures Ordered(calls)
    ensures Kept(Times(Accepted(calls, limits), key), deque, call.at)
    ensures Kept(Times(Accepted(calls, limits), key), Pruned(deque, call.at - WINDOW), call.at)
    ensures |Pruned(deque, call.at - WINDOW)| == Count(Accepted(calls, limits), key, call.at - WINDOW, call.at)
  {
    OrderedPrefix(calls, call);
    AcceptedIsOrdered(calls, limits, call.at);
    var earlier := if calls == [] then call.at else calls[|calls| - 1].at;
    PruningCounts(Accepted(calls, limits), key, deque, earlier, call.at);
  }

  lemma OneMoreAccepted(calls: seq<Call>, call: Call, limits: Limits)
    ensures var log := Accepted(calls, limits);
      Accepted(calls + [call], limits) == if Decide(log, call, limits) == Allowed then log + [call] else log
  {
    assert (calls + [call])[..|calls|] == calls;
  }

  lemma KeptWithOneMore(times: seq<real>, deque: seq<real>, now: real)
    requires Kept(times, deque, now)
    ensures Kept(times + [now], deque + [now], now)
  {
    assert (times + [now])[|times| - |deque|..] == times[|times| - |deque|..] + [now];
  }

  lemma TouchedIsKept(log: seq<Call>, call: Call, key: Key, deque: seq<real>, outcome: Outcome)
    requires Kept(Times(log, key), deque, call.at)
    requires Kept(Times(log, key), Pruned(deque, call.at - WINDOW), call.at)
    ensures Kept(Times(if outcome == Allowed then log + [call] else log, key),
                 Touched(deque, call, key, outcome), call.at)
  {
    OneMore(log, call, key, 0.0, 0.0);
    KeptWithOneMore(Times(log, key), Pruned(deque, call.at - WINDOW), call.at);
  }

  lemma StaysInStep(calls: seq<Call>, call: Call, key: Key, deque: seq<real>, limits: Limits)
    requires Ordered(calls + [call]) && InStep(calls, Accepted(calls, limits), key, deque)
    ensures InStep(calls + [call], Accepted(calls + [call], limits), key,
                   Touched(deque, call, key, Decide(Accepted(calls, limits), call, limits)))
  {
    var log := Accepted(calls, limits);
    WindowIsCounted(calls, call, key, deque, limits);
    OneMoreAccepted(calls, call, limits);
    TouchedIsKept(log, call, key, deque, Decide(log, call, limits));
  }

  lemma OrderedPrefix(calls: seq<Call>, call: Call)
    requires Ordered(calls + [call])
    ensures Ordered(calls) && AllBy(calls, call.at)
  {
    var all := calls + [call];
    assert forall i :: 0 <= i < |calls| ==> all[i] == calls[i] && all[i].at <= all[|calls|].at;
    assert forall i, j :: 0 <= i < j < |calls| ==> all[i].at <= all[j].at;
  }

  function DequeIn(users: map<string, seq<real>>, spaces: map<string, seq<real>>, key: Key): seq<real> {
    match key
    case User(name) => if name in users then users[name] else []
    case Space(name) => if name in spaces then spaces[name] else []
  }

  lemma VerdictIsTheLogs(calls: seq<Call>, call: Call, limits: Limits, userDeque: seq<real>, spaceDeque: seq<real>)
    requires Ordered(calls + [call])
    requires InStep(calls, Accepted(calls, limits), User(call.user), userDeque)
    requires InStep(calls, Accepted(calls, limits), Space(call.space), spaceDeque)
    ensures Verdict(Pruned(userDeque, call.at - WINDOW), Pruned(spaceDeque, call.at - WINDOW), limits)
         == Decide(Accepted(calls, limits), call, limits)
  {
    WindowIsCounted(calls, call, User(call.user), userDeque, limits);
    WindowIsCounted(calls, call, Space(call.space), spaceDeque, limits);
  }

  lemma TouchedIn(users: map<string, seq<real>>, spaces: map<string, seq<real>>, call: Call, outcome: Outcome,
                  users': map<string, seq<real>>, spaces': map<string, seq<real>>)
    requires users'
          == users[call.user := Touched(DequeIn(users, spaces, User(call.user)), call, User(call.user), outcome)]
    requires spaces'
          == spaces[call.space := Touched(DequeIn(users, spaces, Space(call.space)), call, Space(call.space), outcome)]
    ensures forall key :: DequeIn(users', spaces', key) == Touched(DequeIn(users, spaces, key), call, key, outcome)
  {
  }

  // ----- what any calls leave behind, in whatever order their readings come -----

  function DequeAfter(calls: seq<Call>, limits: Limits, key: Key): seq<real>
    decreases |calls|, 0
  {
    if calls == [] then []
    else
      var before, call := calls[..|calls| - 1], calls[|calls| - 1];
      Touched(DequeAfter(before, limits, key), call, key, OutcomeAfter(before, call, limits))
  }

  function OutcomeAfter(before: seq<Call>, call: Call, limits: Limits): Outcome
    decreases |before|, 1
  {
    Verdict(Pruned(DequeAfter(before, limits, User(call.user)), call.at - WINDOW),
            Pruned(DequeAfter(before, limits, Space(call.space)), call.at - WINDOW), limits)
  }

  /** The requests the deques let through. */
  function Passed(calls: seq<Call>, limits: Limits): seq<Call> {
    if calls == [] then []
    else
      var before, call := calls[..|calls| - 1], calls[|calls| - 1];
      Passed(before, limits) + (if OutcomeAfter(before, call, limits) == Allowed then [call] else [])
  }

  lemma OneMoreCall(calls: seq<Call>, call: Call, limits: Limits, key: Key)
    ensures DequeAfter(calls + [call], limits, key)
         == Touched(DequeAfter(calls, limits, key), call, key, OutcomeAfter(calls, call, limits))
    ensures Passed(calls + [call], limits)
         == Passed(calls, limits) + (if OutcomeAfter(calls, call, limits) == Allowed then [call] else [])
  {
    assert (calls + [call])[..|calls|] == calls;
  }

  lemma OutcomeIsTheLogs(calls: seq<Call>, call: Call, limits: Limits)
    requires Ordered(calls + [call])
    requires InStep(calls, Accepted(calls, limits), User(call.user), DequeAfter(calls, limits, User(call.user)))
    requires InStep(calls, Accepted(calls, limits), Space(call.space), DequeAfter(calls, limits, Space(call.space)))
    ensures OutcomeAfter(calls, call, limits) == Decide(Accepted(calls, limits), call, limits)
  {
    VerdictIsTheLogs(calls, call, limits, DequeAfter(calls, limits, User(call.user)),
                     DequeAfter(calls, limits, Space(call.space)));
  }

  lemma PassedStep(calls: seq<Call>, call: Call, limits: Limits)
    requires Passed(calls, limits) == Accepted(calls, limits)
    requires OutcomeAfter(calls, call, limits) == Decide(Accepted(calls, limits), call, limits)
    ensures Passed(calls + [call], limits) == Accepted(calls + [call], limits)
  {
    OneMoreCall(calls, call, limits, User(call.user));
    OneMoreAccepted(calls, call, limits);
  }

  lemma DequeStep(calls: seq<Call>, call: Call, limits: Limits, key: Key)
    requires Ordered(calls + [call])
    requires OutcomeAfter(calls, call, limits) == Decide(Accepted(calls, limits), call, limits)
    requires InStep(calls, Accepted(calls, limits), key, DequeAfter(calls, limits, key))
    ensures InStep(calls + [call], Accepted(calls + [call], limits), key, DequeAfter(calls + [call], limits, key))
  {
    StaysInStep(calls, call, key, DequeAfter(calls, limits, key), limits);
    OneMoreCall(calls, call, limits, key);
  }

  /** When the readings come in order, the deques decide as the full log does, and hold what counting in it needs. */
  lemma {:induction false} OrderedReadingsRefine(calls: seq<Call>, limits: Limits, key: Key)
    requires Ordered(calls)
    ensures Passed(calls, limits) == Accepted(calls, limits)
    ensures InStep(calls, Accepted(calls, limits), key, DequeAfter(calls, limits, key))
  {
    if calls != [] {
      var before, call := calls[..|calls| - 1], calls[|calls| - 1];
      assert calls == before + [call];
      OrderedReadingsRefine(before, limits, key);
      OrderedReadingsRefine(before, limits, User(call.user));
      OrderedReadingsRefine(before, limits, Space(call.space));
      OutcomeIsTheLogs(before, call, limits);
      PassedStep(before, call, limits);
      DequeStep(before, call, limits, key);
    }
  }

  /** In whatever order the clock readings come, no deque outgrows its limit. */
  lemma {:induction false} DequesFit(calls: seq<Call>, limits: Limits, key: Key)
    ensures |DequeAfter(calls, limits, key)| <= Most(limits, key)
  {
    if calls != [] {
      var before, call := calls[..|calls| - 1], calls[|calls| - 1];
      DequesFit(before, limits, key);
      PrunedIsNoLonger(DequeAfter(before, limits, key), call.at - WINDOW);
    }
  }

  /** A while loop of popleft, as the source prunes. */
  method Prune(times: seq<real>, cutoff: real) returns (deque: seq<real>)
    ensures deque == Pruned(times, cutoff)
  {
    deque := times;
    while deque != [] && deque[0] < cutoff
      invariant Pruned(deque, cutoff) == Pruned(times, cutoff)
      decreases |deque|
    {
      deque := deque[1..];
    }
  }

  class DiagnosisRateLimiter {
    const limits: Limits
    var userRequests: map<string, seq<real>>
    var spaceRequests: map<string, seq<real>>

    /** Every call since the last reset, and those of them that were let through. */
    ghost var calls: seq<Call>
    ghost var log: seq<Call>

    function Deque(key: Key): seq<real>
      reads this
    {
      DequeIn(userRequests, spaceRequests, key)
    }

    /** The object is what its calls left behind. */
    ghost predicate Valid()
      reads this
    {
      && (forall key :: Deque(key) == DequeAfter(calls, limits, key))
      && log == Passed(calls, limits)
    }

    constructor (userLimitPerMin: int, spaceLimitPerMin: int)
      ensures Valid() && calls == [] && log == [] && limits == Limits(userLimitPerMin, spaceLimitPerMin)
      ensures forall key :: Deque(key) == []
    {
      limits := Limits(userLimitPerMin, spaceLimitPerMin);
      userRequests, spaceRequests := map[], map[];
      calls, log := [], [];
    }

    method Reset()
      requires Valid()
      modifies this
      ensures Valid() && calls == [] && log == []
      ensures forall key :: Deque(key) == []
    {
      userRequests, spaceRequests := map[], map[];
      calls, log := [], [];
    }

    /** What the lock protects: prune both deques, then let the call through or turn it away. */
    method Admit(spaceId: string, userId: string, now: real) returns (outcome: Outcome)
      modifies `userRequests, `spaceRequests
      ensures outcome == Verdict(Pruned(old(Deque(User(userId))), now - WINDOW),
                                 Pruned(old(Deque(Space(spaceId))), now - WINDOW), limits)
      ensures userRequests == old(userRequests)[userId :=
                Touched(old(Deque(User(userId))), Call(spaceId, userId, now), User(userId), outcome)]
      ensures spaceRequests == old(spaceRequests)[spaceId :=
                Touched(old(Deque(Space(spaceId))), Call(spaceId, userId, now), Space(spaceId), outcome)]
    {
      var cutoff := now - 60.0;
      var userDeque := Prune(Deque(User(userId)), cutoff);
      userRequests := userRequests[userId := userDeque];
      var spaceDeque := Prune(Deque(Space(spaceId)), cutoff);
      spaceRequests := spaceRequests[spaceId := spaceDeque];
      if |userDeque| >= limits.user {
        outcome := UserLimited;
      } else if |spaceDeque| >= limits.space {
        outcome := SpaceLimited;
      } else {
        userRequests := userRequests[userId := userDeque + [now]];
        spaceRequests := spaceRequests[spaceId := spaceDeque + [now]];
        outcome := Allowed;
      }
    }

    method CheckAndRecord(spaceId: string, userId: string, now: real) returns (outcome: Outcome)
      requires Valid()
      modifies this
      ensures Valid()
      ensures calls == old(calls) + [Call(spaceId, userId, now)]
      ensures log == if outcome == Allowed then old(log) + [Call(spaceId, userId, now)] else old(log)
      ensures Ordered(calls) ==> outcome == Decide(old(log), Call(spaceId, userId, now), limits)
      ensures outcome == Verdict(Pruned(old(Deque(User(userId))), now - WINDOW),
                                 Pruned(old(Deque(Space(spaceId))), now - WINDOW), limits)
      ensures forall key :: Deque(key) == Touched(old(Deque(key)), Call(spaceId, userId, now), key, outcome)
      ensures forall key :: |Deque(key)| <= Most(limits, key)
    {
      ghost var call := Call(spaceId, userId, now);
      outcome := Admit(spaceId, userId, now);
      if outcome == Allowed {
        log := log + [call];
      }
      calls := calls + [call];
      TouchedIn(old(userRequests), old(spaceRequests), call, outcome, userRequests, spaceRequests);
      assert outcome == OutcomeAfter(old(calls), call, limits) by {
        assert old(Deque(User(userId))) == DequeAfter(old(calls), limits, User(userId));
        assert old(Deque(Space(spaceId))) == DequeAfter(old(calls), limits, Space(spaceId));
      }
      forall key ensures Deque(key) == DequeAfter(calls, limits, key) && |Deque(key)| <= Most(limits, key) {
        assert old(Deque(key)) == DequeAfter(old(calls), limits, key);
        OneMoreCall(old(calls), call, limits, key);
        DequesFit(calls, limits, key);
      }
      OneMoreCall(old(calls), call, limits, User(userId));
      if Ordered(calls) { OrderedOutcome(old(calls), call, limits); }
    }
  }

  lemma OrderedOutcome(calls: seq<Call>, call: Call, limits: Limits)
    requires Ordered(calls + [call])
    ensures OutcomeAfter(calls, call, limits) == Decide(Passed(calls, limits), call, limits)
  {
    OrderedPrefix(calls, call);
    OrderedReadingsRefine(calls, limits, User(call.user));
    OrderedReadingsRefine(calls, limits, Space(call.space));
    OutcomeIsTheLogs(calls, call, limits);
  }

  /** The limiter itself, with a clock that runs forward: no sixty seconds hold more acceptances than a limit. */
  lemma LimiterNeverOverflows(limiter: DiagnosisRateLimiter, key: Key, start: real)
    requires limiter.Valid() && Ordered(limiter.calls)
    ensures Count(limiter.log, key, start, start + WINDOW) <= Most(limiter.limits, key)
  {
    OrderedReadingsRefine(limiter.calls, limiter.limits, key);
    NoWindowOverflows(limiter.calls, limiter.limits, key, start);
  }
}
