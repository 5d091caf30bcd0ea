/** What the limiter of backend/app/services/diagnosis_service.py lets through when its clock readings come out of
    order: they are taken before the lock. */
module LimiterOverflow {
  import opened Limiter

  /** Both limits let somebody through. */
  predicate AdmitsAnyone(limits: Limits) { limits.user >= 1 && limits.space >= 1 }

  /** Some calls, in some order of their readings, get more requests of the key through in sixty seconds than
      its limit. */
  ghost predicate CanOverflow(limits: Limits, key: Key) {
    exists calls, start :: Overflows(calls, limits, key, start)
  }

  ghost predicate Overflows(calls: seq<Call>, limits: Limits, key: Key, start: real) {
    Count(Passed(calls, limits), key, start, start + WINDOW) > Most(limits, key)
  }

  // ----- a burst of calls of one key, each with another counterpart -----

  function Label(n: nat): string { seq(n, _ => 'x') }

  /** A key of the other kind. */
  function Counterpart(key: Key, n: nat): Key { if key.User? then Space(Label(n)) else User(Label(n)) }

  function CallOf(key: Key, n: nat, at: real): Call {
    if key.User? then Call(Label(n), key.name, at) else Call(key.name, Label(n), at)
  }

  function Burst(key: Key, base: nat, k: nat, at: real): seq<Call> {
    if k == 0 then [] else Burst(key, base, k - 1, at) + [CallOf(key, base + k, at)]
  }

  function Repeated(at: real, k: nat): seq<real> { seq(k, _ => at) }

  lemma LabelsDiffer(m: nat, n: nat)
    ensures Label(m) == Label(n) <==> m == n
  {
    assert |Label(m)| == m && |Label(n)| == n;
  }

  /** Touched by none of the calls of the burst. */
  ghost predicate Untouched(key: Key, base: nat, k: nat, other: Key) {
    other != key && forall j :: base < j <= base + k ==> other != Counterpart(key, j)
  }

  lemma PrunedRepeats(at: real, k: nat)
    ensures Pruned(Repeated(at, k), at - WINDOW) == Repeated(at, k)
  {
  }

  lemma NewcomerPasses(calls: seq<Call>, limits: Limits, key: Key, n: nat, k: nat, at: real)
    requires AdmitsAnyone(limits) && k < LimitOf(limits, key)
    requires DequeAfter(calls, limits, key) == Repeated(at, k) && DequeAfter(calls, limits, Counterpart(key, n)) == []
    ensures Passed(calls + [CallOf(key, n, at)], limits) == Passed(calls, limits) + [CallOf(key, n, at)]
    ensures DequeAfter(calls + [CallOf(key, n, at)], limits, key) == Repeated(at, k + 1)
  {
    hide DequeAfter, Passed;
    PrunedRepeats(at, k);
    OneMoreCall(calls, CallOf(key, n, at), limits, key);
    assert Repeated(at, k + 1) == Repeated(at, k) + [at];
  }

  lemma OthersAreUntouched(calls: seq<Call>, limits: Limits, key: Key, n: nat, at: real, other: Key)
    requires other != key && other != Counterpart(key, n)
    ensures DequeAfter(calls + [CallOf(key, n, at)], limits, other) == DequeAfter(calls, limits, other)
  {
    OneMoreCall(calls, CallOf(key, n, at), limits, other);
  }

  lemma {:induction false} BurstLeavesOthers(before: seq<Call>, limits: Limits, key: Key, base: nat, k: nat, at: real,
                                             other: Key)
    requires Untouched(key, base, k, other)
    ensures DequeAfter(before + Burst(key, base, k, at), limits, other) == DequeAfter(before, limits, other)
  {
    hide DequeAfter;
    if k == 0 {
      assert before + Burst(key, base, 0, at) == before;
    } else {
      BurstLeavesOthers(before, limits, key, base, k - 1, at, other);
      BurstGrows(before, key, base, k, at);
      OthersAreUntouched(before + Burst(key, base, k - 1, at), limits, key, base + k, at, other);
    }
  }

  lemma BurstGrows(before: seq<Call>, key: Key, base: nat, k: nat, at: real)
    requires k > 0
    ensures before + Burst(key, base, k, at) == before + Burst(key, base, k - 1, at) + [CallOf(key, base + k, at)]
  {
  }

  /** As many calls of a key as its limit allows, at one reading and each with a counterpart never seen, get through. */
  lemma {:induction false} BurstPasses(before: seq<Call>, limits: Limits, key: Key, base: nat, k: nat, at: real)
    requires AdmitsAnyone(limits) && k <= LimitOf(limits, key)
    requires DequeAfter(before, limits, key) == []
    requires forall j :: base < j <= base + k ==> DequeAfter(before, limits, Counterpart(key, j)) == []
    ensures Passed(before + Burst(key, base, k, at), limits) == Passed(before, limits) + Burst(key, base, k, at)
    ensures DequeAfter(before + Burst(key, base, k, at), limits, key) == Repeated(at, k)
  {
    if k == 0 {
      assert before + Burst(key, base, 0, at) == before;
    } else {
      BurstPasses(before, limits, key, base, k - 1, at);
      UntouchedByLabels(key, base, k - 1, base + k);
      BurstLeavesOthers(before, limits, key, base, k - 1, at, Counterpart(key, base + k));
      BurstStep(before, limits, key, base, k, at);
    }
  }

  lemma BurstStep(before: seq<Call>, limits: Limits, key: Key, base: nat, k: nat, at: real)
    requires AdmitsAnyone(limits) && 0 < k <= LimitOf(limits, key)
    requires Passed(before + Burst(key, base, k - 1, at), limits)
          == Passed(before, limits) + Burst(key, base, k - 1, at)
    requires DequeAfter(before + Burst(key, base, k - 1, at), limits, key) == Repeated(at, k - 1)
    requires DequeAfter(before + Burst(key, base, k - 1, at), limits, Counterpart(key, base + k)) == []
    ensures Passed(before + Burst(key, base, k, at), limits) == Passed(before, limits) + Burst(key, base, k, at)
    ensures DequeAfter(before + Burst(key, base, k, at), limits, key) == Repeated(at, k)
  {
    BurstGrows(before, key, base, k, at);
    BurstGrows(Passed(before, limits), key, base, k, at);
    NewcomerPasses(before + Burst(key, base, k - 1, at), limits, key, base + k, k - 1, at);
  }

  lemma {:induction false} CountOfBurst(log: seq<Call>, key: Key, base: nat, k: nat, at: real, start: real)
    requires start <= at <= start + WINDOW
    ensures Count(log + Burst(key, base, k, at), key, start, start + WINDOW)
         == Count(log, key, start, start + WINDOW) + k
  {
    if k == 0 {
      assert log + Burst(key, base, 0, at) == log;
    } else {
      CountOfBurst(log, key, base, k - 1, at, start);
      BurstGrows(log, key, base, k, at);
      OneMore(log + Burst(key, base, k - 1, at), CallOf(key, base + k, at), key, start, start + WINDOW);
    }
  }

  // ----- overflow -----

  lemma {:induction false} PrunedAway(at: real, k: nat, cutoff: real)
    requires at < cutoff
    ensures Pruned(Repeated(at, k), cutoff) == []
  {
    if k > 0 {
      assert Repeated(at, k)[1..] == Repeated(at, k - 1);
      PrunedAway(at, k - 1, cutoff);
    }
  }

  lemma UntouchedByLabels(key: Key, base: nat, k: nat, n: nat)
    requires n <= base || n > base + k
    ensures Untouched(key, base, k, Counterpart(key, n))
  {
    forall j | base < j <= base + k ensures Counterpart(key, n) != Counterpart(key, j) { LabelsDiffer(n, j); }
  }

  lemma UntouchedByLonger(key: Key, k: nat)
    ensures Untouched(Counterpart(key, 0), |key.name|, k, key)
  {
    forall j | |key.name| < j <= |key.name| + k ensures key != Counterpart(Counterpart(key, 0), j) {
      assert |Label(j)| == j;
    }
  }

  /** The first burst: the key's limit is used up. */
  function FirstBurst(limits: Limits, key: Key): seq<Call>
    requires AdmitsAnyone(limits)
  {
    Burst(key, 0, LimitOf(limits, key), 100.0)
  }

  /** The second: that of its counterpart, too. */
  function SecondBurst(limits: Limits, key: Key): seq<Call>
    requires AdmitsAnyone(limits)
  {
    Burst(Counterpart(key, 0), |key.name|, LimitOf(limits, Counterpart(key, 0)), 170.0)
  }

  lemma FirstPasses(limits: Limits, key: Key, other: Key)
    requires AdmitsAnyone(limits)
    ensures Passed(FirstBurst(limits, key), limits) == FirstBurst(limits, key)
    ensures DequeAfter(FirstBurst(limits, key), limits, key) == Repeated(100.0, LimitOf(limits, key))
    ensures Untouched(key, 0, LimitOf(limits, key), other) ==> DequeAfter(FirstBurst(limits, key), limits, other) == []
  {
    var n := LimitOf(limits, key);
    BurstPasses([], limits, key, 0, n, 100.0);
    assert [] + FirstBurst(limits, key) == FirstBurst(limits, key);
    if Untouched(key, 0, n, other) { BurstLeavesOthers([], limits, key, 0, n, 100.0, other); }
  }

  lemma SecondPasses(limits: Limits, key: Key)
    requires AdmitsAnyone(limits)
    ensures Passed(FirstBurst(limits, key) + SecondBurst(limits, key), limits)
         == FirstBurst(limits, key) + SecondBurst(limits, key)
    ensures DequeAfter(FirstBurst(limits, key) + SecondBurst(limits, key), limits, Counterpart(key, 0))
         == Repeated(170.0, LimitOf(limits, Counterpart(key, 0)))
  {
    var other, n := Counterpart(key, 0), LimitOf(limits, key);
    var m := LimitOf(limits, other);
    UntouchedByLabels(key, 0, n, 0);
    FirstPasses(limits, key, other);
    forall j | |key.name| < j <= |key.name| + m
      ensures DequeAfter(FirstBurst(limits, key), limits, Counterpart(other, j)) == []
    {
      assert |Label(j)| == j;
      FirstPasses(limits, key, Counterpart(other, j));
    }
    BurstPasses(FirstBurst(limits, key), limits, other, |key.name|, m, 170.0);
  }

  /** The key's limit is used up at 100; its counterpart's at 170, so that a call of both is turned away but prunes
      the key's deque; then a call whose clock was read at 110 gets through. */
  function Overflowing(limits: Limits, key: Key): seq<Call>
    requires AdmitsAnyone(limits)
  {
    FirstBurst(limits, key) + SecondBurst(limits, key)
      + [CallOf(key, 0, 170.0)] + [CallOf(key, LimitOf(limits, key) + 1, 110.0)]
  }

  /** After the two bursts both limits are used up, at different times. */
  lemma BothFull(limits: Limits, key: Key)
    requires AdmitsAnyone(limits)
    ensures var both := FirstBurst(limits, key) + SecondBurst(limits, key);
      && Passed(both, limits) == both
      && DequeAfter(both, limits, key) == Repeated(100.0, LimitOf(limits, key))
      && DequeAfter(both, limits, Counterpart(key, 0)) == Repeated(170.0, LimitOf(limits, Counterpart(key, 0)))
      && DequeAfter(both, limits, Counterpart(key, LimitOf(limits, key) + 1)) == []
  {
    hide DequeAfter, Passed;
    var first, other, n := FirstBurst(limits, key), Counterpart(key, 0), LimitOf(limits, key);
    var m, fresher := LimitOf(limits, other), Counterpart(key, n + 1);
    SecondPasses(limits, key);
    UntouchedByLonger(key, m);
    BurstLeavesOthers(first, limits, other, |key.name|, m, 170.0, key);
    UntouchedByLabels(key, 0, n, n + 1);
    FirstPasses(limits, key, fresher);
    LabelsDiffer(0, n + 1);
    BurstLeavesOthers(first, limits, other, |key.name|, m, 170.0, fresher);
  }

  /** A call that is turned away because of its other key leaves this key's deque pruned. */
  lemma TurnedAwayPrunes(calls: seq<Call>, limits: Limits, key: Key)
    requires AdmitsAnyone(limits)
    requires DequeAfter(calls, limits, key) == Repeated(100.0, LimitOf(limits, key))
    requires DequeAfter(calls, limits, Counterpart(key, 0)) == Repeated(170.0, LimitOf(limits, Counterpart(key, 0)))
    ensures DequeAfter(calls + [CallOf(key, 0, 170.0)], limits, key) == []
    ensures Passed(calls + [CallOf(key, 0, 170.0)], limits) == Passed(calls, limits)
  {
    PrunedAway(100.0, LimitOf(limits, key), 110.0);
    PrunedRepeats(170.0, LimitOf(limits, Counterpart(key, 0)));
    assert OutcomeAfter(calls, CallOf(key, 0, 170.0), limits) != Allowed;
    OneMoreCall(calls, CallOf(key, 0, 170.0), limits, key);
  }

  lemma {:induction false} BurstOfOther(log: seq<Call>, key: Key, base: nat, k: nat, at: real, start: real)
    requires at > start + WINDOW
    ensures Count(log + Burst(Counterpart(key, 0), base, k, at), key, start, start + WINDOW)
         == Count(log, key, start, start + WINDOW)
  {
    var other := Counterpart(key, 0);
    if k == 0 {
      assert log + Burst(other, base, 0, at) == log;
    } else {
      BurstOfOther(log, key, base, k - 1, at, start);
      BurstGrows(log, other, base, k, at);
      OneMore(log + Burst(other, base, k - 1, at), CallOf(other, base + k, at), key, start, start + WINDOW);
    }
  }

  lemma BurstsCounted(limits: Limits, key: Key)
    requires AdmitsAnyone(limits)
    ensures Count(FirstBurst(limits, key) + SecondBurst(limits, key) + [CallOf(key, LimitOf(limits, key) + 1, 110.0)],
                  key, 100.0, 100.0 + WINDOW) == LimitOf(limits, key) + 1
  {
    var other, n, first := Counterpart(key, 0), LimitOf(limits, key), FirstBurst(limits, key);
    CountOfBurst([], key, 0, n, 100.0, 100.0);
    assert [] + first == first;
    BurstOfOther(first, key, |key.name|, LimitOf(limits, other), 170.0, 100.0);
    OneMore(first + SecondBurst(limits, key), CallOf(key, n + 1, 110.0), key, 100.0, 100.0 + WINDOW);
  }

  /** The sixty seconds from 100 on hold one request more than the limit. */
  lemma OneTooMany(limits: Limits, key: Key)
    requires AdmitsAnyone(limits)
    ensures Count(Passed(Overflowing(limits, key), limits), key, 100.0, 100.0 + WINDOW) == LimitOf(limits, key) + 1
  {
    hide DequeAfter, Passed, Count;
    var both, n := FirstBurst(limits, key) + SecondBurst(limits, key), LimitOf(limits, key);
    BothFull(limits, key);
    TurnedAwayPrunes(both, limits, key);
    LabelsDiffer(0, n + 1);
    OthersAreUntouched(both, limits, key, 0, 170.0, Counterpart(key, n + 1));
    assert Repeated(110.0, 0) == [];
    NewcomerPasses(both + [CallOf(key, 0, 170.0)], limits, key, n + 1, 0, 110.0);
    BurstsCounted(limits, key);
  }

  lemma {:induction false} NobodyPasses(calls: seq<Call>, limits: Limits)
    requires !AdmitsAnyone(limits)
    ensures Passed(calls, limits) == []
  {
    if calls != [] { NobodyPasses(calls[..|calls| - 1], limits); }
  }

  /** Every limiter that admits anyone at all exceeds each of its limits for some order of the readings; one that
      admits nobody never does. */
  lemma OverflowsIffItAdmitsAnyone(limits: Limits, key: Key)
    ensures CanOverflow(limits, key) <==> AdmitsAnyone(limits)
  {
    if AdmitsAnyone(limits) {
      OneTooMany(limits, key);
      assert Overflows(Overflowing(limits, key), limits, key, 100.0);
    } else {
      forall calls, start ensures !Overflows(calls, limits, key, start) { NobodyPasses(calls, limits); }
    }
  }

  /** Such a run of the object: the clock is read before the lock is taken, so readings can come out of order. */
  method StaleReadings(limits: Limits, key: Key) returns (limiter: DiagnosisRateLimiter)
    requires AdmitsAnyone(limits)
    ensures fresh(limiter) && limiter.Valid() && limiter.limits == limits
    ensures Count(limiter.log, key, 100.0, 100.0 + WINDOW) == LimitOf(limits, key) + 1
  {
    limiter := new DiagnosisRateLimiter(limits.user, limits.space);
    var calls := Overflowing(limits, key);
    for i := 0 to |calls|
      invariant fresh(limiter) && limiter.Valid() && limiter.limits == limits && limiter.calls == calls[..i]
    {
      assert calls[..i + 1] == calls[..i] + [calls[i]];
      var _ := limiter.CheckAndRecord(calls[i].space, calls[i].user, calls[i].at);
    }
    assert calls[..|calls|] == calls;
    OneTooMany(limits, key);
  }
}
