/** The programs that run against the store: the approval endpoint, the bundler, the reconciler,
    the stalled-run scanner and the sweeper. Before every access to the store the other actors may
    take any enabled steps (`Interfere`), so each contract holds under every interleaving. */
module ApprovalHandlers {
  import opened Options
  import opened ApprovalProtocol
  import opened ApprovalRuns
  import opened ApprovalClaims
  import opened ApprovalStore

  datatype ReconcileCode =
    | AlreadyCompleted
    | AlreadyAborted
    | NoArtifactsFailed
    | CommittedPublished
    | Conflict
    | InProgress
    | AbortedCleanupEnqueued

  datatype Outcome =
    | Approval(run: Run)
    | Rejection(run: Run)
    | AlreadyDecided        // 409
    | WrongState            // 400
    | GenerationFailed      // 500
    | CommitUncertain       // 500

  /** What the network does to the answer of the commit transaction. */
  datatype Answer = Delivered | LostAfterCommit | LostBeforeCommit

  /** `bundleFailsAt` is the bundler step that raises; `shares` says whether the bundler's run object
      is the stored object itself (in-memory store) or a copy (Firestore); the disk refuses to delete `stuck`. */
  datatype Environment =
    Environment(bundleFailsAt: nat, shares: bool, stuck: set<Id>, answer: Answer, reconcileRaises: bool)

  // ---------------------------------------------------------------- reconciler

  /** The answer of an undisturbed reconciliation, as the design states it. */
  function UndisturbedCode(s: Store, force: bool): ReconcileCode {
    if s.run.status == Completed then AlreadyCompleted
    else if s.run.status == Failed && s.run.commit == Aborted then AlreadyAborted
    else if ReconcileIds(s.run) == [] then NoArtifactsFailed
    else if LeaseActive(s.run, s.now, force) then InProgress
    else if s.run.status == Running then AbortedCleanupEnqueued
    else Conflict
  }

  /** The run after an abort: failed for good, its gate closed, and nobody's claim left on it. */
  function AbandonedRun(run: Run): Run {
    run.(status := Failed, commit := Aborted, uncertainSince := None, version := run.version + 1,
         gate := Gate(GateFailed, None, None))
  }

  /** The store after an undisturbed reconciliation. */
  function UndisturbedStore(s: Store, force: bool): Store {
    if s.run.status == Running && ReconcileIds(s.run) == [] then
      s.(run := AbandonedRun(s.run))
    else if UndisturbedCode(s, force) == AbortedCleanupEnqueued then
      s.(run := AbandonedRun(s.run),
         jobs := Enqueue(s.jobs, CleanupsFor(ReconcileIds(s.run), s.run.version)))
    else s
  }

  predicate Truthful(code: ReconcileCode, s: Store) {
    && (code in {CommittedPublished, AlreadyCompleted} ==> s.run.status == Completed)
    && (code in {AbortedCleanupEnqueued, AlreadyAborted} ==> s.run.status == Failed)
  }

  method AllArtifactsPublished(store: MemoryStore, ids: seq<Id>) returns (all: bool)
    requires store.Valid()
    modifies store
    ensures store.Valid() && old(store.history) <= store.history && store.aborts == old(store.aborts)
    ensures store.decisions == old(store.decisions)
    ensures all && ids != [] ==> store.run.status == Completed
    ensures store.Quiet() ==> store.View() == old(store.View())
    ensures store.Quiet() && store.run.status != Completed && ids != [] ==> !all
    ensures store.Quiet() ==>
              (all <==> forall i :: 0 <= i < |ids| ==>
                          ids[i] in old(store.artifacts) && old(store.artifacts)[ids[i]] == Published
                          && ids[i] in old(store.files) && old(store.files)[ids[i]] == Published)
  {
    all := true;
    for i := 0 to |ids|
      invariant store.Valid() && old(store.history) <= store.history && store.aborts == old(store.aborts)
      invariant store.decisions == old(store.decisions)
      invariant all && i > 0 ==> store.run.status == Completed
      invariant store.Quiet() ==> store.View() == old(store.View())
      invariant store.Quiet() ==>
                  (all <==> forall k :: 0 <= k < i ==>
                              ids[k] in old(store.artifacts) && old(store.artifacts)[ids[k]] == Published
                              && ids[k] in old(store.files) && old(store.files)[ids[k]] == Published)
    {
      store.Interfere();
      var artifactPublished := IsPublished(store.artifacts, ids[i]);
      store.Interfere();
      var filePublished := IsPublished(store.files, ids[i]);
      if !(artifactPublished && filePublished) {
        all := false;
        break;
      }
    }
  }

  method CollectCleanups(store: MemoryStore, ids: seq<Id>, version: nat) returns (cleanups: seq<JobId>)
    requires store.Valid()
    modifies store
    ensures store.Valid() && old(store.history) <= store.history && store.aborts == old(store.aborts)
    ensures store.decisions == old(store.decisions)
    ensures cleanups == CleanupsFor(ids, version)
    ensures store.Quiet() ==> store.View() == old(store.View())
  {
    cleanups := [];
    for i := 0 to |ids|
      invariant store.Valid() && old(store.history) <= store.history && store.aborts == old(store.aborts)
      invariant store.decisions == old(store.decisions)
      invariant cleanups == CleanupsFor(ids, version)[..i]
      invariant store.Quiet() ==> store.View() == old(store.View())
    {
      store.Interfere();   // reads the artifact record for its file name
      cleanups := cleanups + [JobId(ids[i], version)];
    }
    assert CleanupsFor(ids, version)[..|ids|] == CleanupsFor(ids, version);
  }

  /** What one reconciliation saw and did: the run as first read, at step `readAt` of the store's history; the clock
      that its lease was compared with, read at step `clockAt`; and the step of its own abort, if it issued one. */
  datatype Reconciling = Reconciling(read: Run, readAt: nat, clock: int, clockAt: nat, wrote: Option<nat>)

  /** Neither completed nor aborted. */
  predicate Undecided(run: Run) {
    && !(run.status == Completed && (run.commit == Committed || run.gate.status == Approved))
    && !(run.status == Failed && run.commit == Aborted)
  }

  /** A run that names nothing is aborted whatever its lease; any other one once its lease, as read, has expired. */
  predicate AbortDue(read: Run, clock: int, force: bool) {
    Undecided(read) && (ReconcileIds(read) == [] || !LeaseActive(read, clock, force))
  }

  /** The readings are of this history, in this order and not before `since`, and the abort is of what was read. */
  ghost predicate Recorded(s: Store, ops: seq<Op>, since: nat, r: Reconciling) {
    && since <= r.readAt <= r.clockAt <= |ops|
    && At(s, ops, r.readAt).run == r.read && At(s, ops, r.clockAt).now == r.clock
    && (r.wrote.Some? ==>
          && r.clockAt <= r.wrote.value < |ops|
          && ops[r.wrote.value] == ReconcileFailed(CleanupsFor(ReconcileIds(r.read), r.read.version)))
  }

  /** The abort found a running approval under a live lease. */
  ghost predicate HitLiveLease(s: Store, ops: seq<Op>, w: nat)
    requires w <= |ops|
  {
    At(s, ops, w).run.status == Running && LeaseActive(At(s, ops, w).run, At(s, ops, w).now, false)
  }

  /** An unforced abort of a run that names something hits a live lease exactly when that was claimed since the
      reading; any other abort does so exactly when the run was claimed less than a lease ago. */
  ghost predicate HitsAsClaimed(s: Store, ops: seq<Op>, r: Reconciling, force: bool) {
    r.wrote.Some? ==>
      && r.readAt <= r.wrote.value <= |ops|
      && (At(s, ops, r.wrote.value).run.status == Running ==>
            (HitLiveLease(s, ops, r.wrote.value) <==>
               FreshlyClaimed(s, ops, if force || ReconcileIds(r.read) == [] then 0 else r.readAt, r.wrote.value)))
  }

  /** The store accepted that step. */
  ghost predicate Effective(s: Store, ops: seq<Op>, w: nat) { w < |ops| && Accepted(At(s, ops, w), ops[w]) }

  /** An abort that found a running approval has failed it. */
  ghost predicate Settled(t: Store, s: Store, ops: seq<Op>, w: nat) {
    w < |ops| && (At(s, ops, w).run.status == Running ==> t.run.status == Failed)
  }

  method ReconcileApprovalCommit(store: MemoryStore, force: bool)
    returns (code: ReconcileCode, result: Run, ghost r: Reconciling)
    requires store.Valid()
    modifies store
    ensures store.Valid() && old(store.history) <= store.history
    ensures store.decisions == old(store.decisions)
    ensures Truthful(code, store.View())
    ensures code in {CommittedPublished, AlreadyCompleted} ==> result.status == Completed && result == store.run
    ensures Recorded(store.origin, store.history, |old(store.history)|, r)
    ensures store.aborts == old(store.aborts) + (if r.wrote.Some? then [r.wrote.value] else [])
    ensures r.wrote.Some? ==>
              AbortDue(r.read, r.clock, force) && Settled(store.View(), store.origin, store.history, r.wrote.value)
    ensures AbortDue(r.read, r.clock, force) && r.wrote.None? ==>
              ReconcileIds(r.read) != [] && code == AlreadyCompleted
    ensures HitsAsClaimed(store.origin, store.history, r, force)
    ensures r.read.status == Running && LeaseActive(r.read, r.clock, force) ==>
              (r.wrote.Some? <==> ReconcileIds(r.read) == [])
    ensures code == NoArtifactsFailed <==> Undecided(r.read) && ReconcileIds(r.read) == []
    ensures code == InProgress ==> r.wrote.None? && LeaseActive(r.read, r.clock, force)
    ensures code == AbortedCleanupEnqueued ==>
              r.wrote.Some? && ReconcileIds(r.read) != [] && Effective(store.origin, store.history, r.wrote.value)
    ensures old(store.run).status == Completed ==> code == AlreadyCompleted
    ensures store.Quiet() ==>
              && code == UndisturbedCode(old(store.View()), force)
              && store.View() == UndisturbedStore(old(store.View()), force)
  {
    store.Interfere();
    ghost var seen := store.history;
    ghost var readAt := |store.history|;
    assert store.history[..readAt] == store.history;
    var read := store.run;
    result := read;
    r := Reconciling(read, readAt, store.now, readAt, None);
    if read.status == Completed && (read.commit == Committed || read.gate.status == Approved) {
      code := AlreadyCompleted;
      return;
    }
    if read.status == Failed && read.commit == Aborted {
      code := AlreadyAborted;
      return;
    }
    code, result, r := ReconcileUndecided(store, read, force);
    assert store.history[..readAt] == seen;
    AbortHitsAsClaimed(store, r, force);
  }

  lemma AbortHitsAsClaimed(store: MemoryStore, r: Reconciling, force: bool)
    requires store.Valid() && Recorded(store.origin, store.history, 0, r)
    requires r.wrote.Some? ==> AbortDue(r.read, r.clock, force)
    ensures HitsAsClaimed(store.origin, store.history, r, force)
  {
    if r.wrote.Some? && At(store.origin, store.history, r.wrote.value).run.status == Running {
      if force || ReconcileIds(r.read) == [] {
        LeaseIsLiveIffFreshlyClaimed(store.origin, store.history, r.wrote.value);
      } else {
        ExpiredLeaseIsLiveIffClaimedSince(store.origin, store.history, r.readAt, r.clockAt, r.wrote.value);
      }
    }
  }

  /** The part after the early returns. */
  method ReconcileUndecided(store: MemoryStore, read: Run, force: bool)
    returns (code: ReconcileCode, result: Run, ghost r: Reconciling)
    requires store.Valid() && store.run == read && Undecided(read)
    modifies store
    ensures store.Valid() && old(store.history) <= store.history
    ensures store.decisions == old(store.decisions)
    ensures Truthful(code, store.View())
    ensures code in {CommittedPublished, AlreadyCompleted} ==> result.status == Completed && result == store.run
    ensures r.read == read && r.readAt == |old(store.history)|
    ensures Recorded(store.origin, store.history, |old(store.history)|, r)
    ensures store.aborts == old(store.aborts) + (if r.wrote.Some? then [r.wrote.value] else [])
    ensures r.wrote.Some? ==>
              AbortDue(read, r.clock, force) && Settled(store.View(), store.origin, store.history, r.wrote.value)
    ensures AbortDue(read, r.clock, force) && r.wrote.None? ==> ReconcileIds(read) != [] && code == AlreadyCompleted
    ensures code == NoArtifactsFailed <==> ReconcileIds(read) == []
    ensures code == InProgress ==> r.wrote.None? && LeaseActive(read, r.clock, force)
    ensures code == AbortedCleanupEnqueued ==>
              r.wrote.Some? && ReconcileIds(read) != [] && Effective(store.origin, store.history, r.wrote.value)
    ensures store.Quiet() && read.status != Completed ==>
              && code == UndisturbedCode(old(store.View()), force)
              && store.View() == UndisturbedStore(old(store.View()), force)
  {
    hide Inv, IsRun;
    if ReconcileIds(read) != [] {
      code, result, r := ReconcileNamed(store, read, force);
      return;
    }
    ghost var start := store.history;
    assert start[..|start|] == start;
    result := read;
    r := Reconciling(read, |start|, store.now, |start|, None);
    ghost var w;
    code, w := AbandonEmpty(store, read.version);
    r := r.(wrote := Some(w));
    assert store.history[..|start|] == start;
  }

  lemma ViewIsAtEnd(store: MemoryStore)
    requires store.Valid()
    ensures At(store.origin, store.history, |store.history|) == store.View()
  {
    assert store.history[..|store.history|] == store.history;
  }

  /** A run that names something. */
  method ReconcileNamed(store: MemoryStore, read: Run, force: bool)
    returns (code: ReconcileCode, result: Run, ghost r: Reconciling)
    requires store.Valid() && store.run == read && Undecided(read) && ReconcileIds(read) != []
    modifies store
    ensures store.Valid() && old(store.history) <= store.history
    ensures store.decisions == old(store.decisions)
    ensures Truthful(code, store.View()) && code != NoArtifactsFailed
    ensures code in {CommittedPublished, AlreadyCompleted} ==> result.status == Completed && result == store.run
    ensures r.read == read && r.readAt == |old(store.history)|
    ensures Recorded(store.origin, store.history, |old(store.history)|, r)
    ensures store.aborts == old(store.aborts) + (if r.wrote.Some? then [r.wrote.value] else [])
    ensures r.wrote.Some? ==>
              !LeaseActive(read, r.clock, force) && Settled(store.View(), store.origin, store.history, r.wrote.value)
    ensures !LeaseActive(read, r.clock, force) && r.wrote.None? ==> code == AlreadyCompleted
    ensures code == InProgress ==> r.wrote.None? && LeaseActive(read, r.clock, force)
    ensures code == AbortedCleanupEnqueued ==> r.wrote.Some? && Effective(store.origin, store.history, r.wrote.value)
    ensures store.Quiet() && read.status != Completed ==>
              && code == UndisturbedCode(old(store.View()), force)
              && store.View() == UndisturbedStore(old(store.View()), force)
  {
    hide MemoryStore.Valid, Exec, LeaseActive, ReconcileIds, CleanupsFor, Settle, Enqueue, Effective;
    ghost var start := store.history;
    ViewIsAtEnd(store);
    result := read;
    r := Reconciling(read, |start|, store.now, |start|, None);
    var all := AllArtifactsPublished(store, ReconcileIds(read));
    if all {
      code, result := Confirm(store);
      assert store.history[..|start|] == start[..|start|];
      return;
    }
    store.Interfere();
    ghost var seen := store.history;
    ViewIsAtEnd(store);
    assert seen[..|start|] == start[..|start|];
    r := r.(clock := store.now, clockAt := |seen|);
    if LeaseActive(read, store.now, force) {
      code := InProgress;
      return;
    }
    ghost var w;
    code, result, w := Abort(store, ReconcileIds(read), read);
    r := r.(wrote := Some(w));
    assert store.history[..|seen|] == seen[..|seen|] && store.history[..|start|] == start[..|start|];
  }

  /** A RUNNING run has nothing published, so its abort is never refused; any other status keeps the store as it is. */
  lemma AbortOutcome(s: Store, cleanups: seq<JobId>)
    requires Inv(s)
    ensures Enabled(s, ReconcileFailed(cleanups))
    ensures Accepted(s, ReconcileFailed(cleanups))
              == (s.run.status == Running || (s.run.status == Failed && s.run.commit == Aborted))
    ensures Apply(s, ReconcileFailed(cleanups)) ==
            if s.run.status == Running
            then s.(run := AbandonedRun(s.run), jobs := Enqueue(s.jobs, cleanups))
            else s
  {
    if s.run.status == Running { NothingToConfirm(s); }
  }

  /** With no claim between its reading and its step an unforced abort hits a live lease if and only if the run as read
      named nothing and its lease is still live: the lease is looked at for every other run. */
  lemma LiveLeaseIsHitIffNothingNamed(s: Store, ops: seq<Op>, r: Reconciling)
    requires Init(s) && IsRun(s, ops) && Recorded(s, ops, 0, r) && r.wrote.Some? && AbortDue(r.read, r.clock, false)
    requires At(s, ops, r.wrote.value).run.status == Running && !ClaimedBetween(s, ops, r.readAt, r.wrote.value)
    ensures HitLiveLease(s, ops, r.wrote.value) <==>
              ReconcileIds(r.read) == [] && LeaseActive(r.read, At(s, ops, r.wrote.value).now, false)
  {
    GateStaysBetweenClaims(s, ops, r.readAt, r.wrote.value);
    InvAlways(s, ops, r.wrote.value);
    if ReconcileIds(r.read) != [] {
      ExpiredLeaseIsLiveIffClaimedSince(s, ops, r.readAt, r.clockAt, r.wrote.value);
    }
  }

  /** The step `w` is the one abort that this handle issued since; one that found a running approval failed it. */
  twostate predicate Wrote(store: MemoryStore, w: nat, cleanups: seq<JobId>)
    reads store
  {
    && |old(store.history)| <= w && Settled(store.View(), store.origin, store.history, w)
    && store.history[w] == ReconcileFailed(cleanups)
    && store.aborts == old(store.aborts) + [w]
  }

  /** The answer's flag is not looked at: this code alone says nothing about the stored run. */
  method AbandonEmpty(store: MemoryStore, version: nat) returns (code: ReconcileCode, ghost w: nat)
    requires store.Valid()
    modifies store
    ensures store.Valid() && old(store.history) <= store.history
    ensures store.decisions == old(store.decisions)
    ensures code == NoArtifactsFailed && Wrote(store, w, CleanupsFor([], version))
    ensures store.run.status != Running
    ensures store.Quiet() && old(store.run).status == Running ==>
              store.View() == old(store.View()).(run := AbandonedRun(old(store.run)))
    ensures store.Quiet() && old(store.run).status != Running ==> store.View() == old(store.View())
  {
    store.Interfere();
    AbortOutcome(store.View(), []);
    assert Enqueue(store.jobs, []) == store.jobs;
    w := |store.history|;
    var ok := store.ReconcileAsFailed([]);
    code := NoArtifactsFailed;
  }

  /** All artifacts were seen published. */
  method Confirm(store: MemoryStore) returns (code: ReconcileCode, result: Run)
    requires store.Valid() && store.run.status == Completed
    modifies store
    ensures store.Valid() && old(store.history) <= store.history && store.aborts == old(store.aborts)
    ensures store.decisions == old(store.decisions)
    ensures code == AlreadyCompleted && result.status == Completed && result == store.run
    ensures store.Quiet() ==> store.View() == old(store.View())
  {
    store.Interfere();
    var ok := store.ReconcileAsCompleted();
    code, result := CommittedPublished, store.run;
    if !ok {
      store.Interfere();
      result := store.run;
      code := if result.status == Completed then AlreadyCompleted
              else if result.status == Failed then AlreadyAborted else Conflict;
    }
  }

  method AttemptAbort(store: MemoryStore, cleanups: seq<JobId>) returns (ok: bool, result: Run, ghost w: nat)
    requires store.Valid()
    modifies store
    ensures store.Valid() && old(store.history) <= store.history
    ensures store.decisions == old(store.decisions)
    ensures result == store.run && store.run.status != Running
    ensures Wrote(store, w, cleanups) && ok == Accepted(At(store.origin, store.history, w), ReconcileFailed(cleanups))
    ensures ok ==> store.run.status == Failed
    ensures store.Quiet() ==> ok == (old(store.run).status == Running
                                     || (old(store.run).status == Failed && old(store.run).commit == Aborted))
    ensures store.Quiet() && old(store.run).status == Running ==>
              store.View() == old(store.View()).(
                run := AbandonedRun(old(store.run)),
                jobs := Enqueue(old(store.jobs), cleanups))
    ensures store.Quiet() && old(store.run).status != Running ==> store.View() == old(store.View())
  {
    store.Interfere();
    AbortOutcome(store.View(), cleanups);
    ghost var before := store.history;
    w := |before|;
    ok := store.ReconcileAsFailed(cleanups);
    assert store.history[..w] == before;
    result := store.run;
  }

  method Abort(store: MemoryStore, ids: seq<Id>, read: Run) returns (code: ReconcileCode, result: Run, ghost w: nat)
    requires store.Valid()
    modifies store
    ensures store.Valid() && old(store.history) <= store.history
    ensures store.decisions == old(store.decisions)
    ensures Truthful(code, store.View()) && code in {AbortedCleanupEnqueued, AlreadyAborted, AlreadyCompleted, Conflict}
    ensures result == store.run && (code == AlreadyCompleted ==> result.status == Completed)
    ensures Wrote(store, w, CleanupsFor(ids, read.version))
    ensures code == AbortedCleanupEnqueued ==> Effective(store.origin, store.history, w)
    ensures store.Quiet() && old(store.run).status == Running ==>
              && code == AbortedCleanupEnqueued
              && store.View() == old(store.View()).(
                   run := AbandonedRun(old(store.run)),
                   jobs := Enqueue(old(store.jobs), CleanupsFor(ids, read.version)))
    ensures store.Quiet() && (old(store.run).status == AwaitingApproval
                              || (old(store.run).status == Failed && old(store.run).commit != Aborted)) ==>
              store.View() == old(store.View()) && code == Conflict
  {
    var cleanups := CollectCleanups(store, ids, read.version);
    var ok;
    ok, result, w := AttemptAbort(store, cleanups);
    if ok { return AbortedCleanupEnqueued, result, w; }
    ghost var tried := store.history;
    store.Interfere();
    assert store.history[..w] == tried[..w];
    result := store.run;
    code := if result.status == Failed && result.commit == Aborted then AlreadyAborted
            else if result.status == Completed then AlreadyCompleted else Conflict;
  }
}
