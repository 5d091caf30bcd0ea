/** The file store as an object, with one method per atomic operation, and the programs that run
    against it: the uploader with its heartbeat and compensation, the cleaner, and the owner's
    deletion. */
module UploadStore {
  import Numerals
  import opened Options
  import opened UploadProtocol
  import opened UploadRuns

  /** Whose steps this handle issues; the other actors never issue those. */
  datatype Role = Uploader | Cleaner(token: Token) | Owner

  predicate UploaderOp(op: Op) {
    match op
    case SaveIntent => true
    case WriteBlob => true
    case CommitUpload => true
    case GiveUp => true
    case RemoveBlob => true
    case DropIntent => true
    case MarkFailed => true
    case _ => false
  }

  predicate CleanerOp(op: Op, token: Token) {
    match op
    case MarkDeleting(c) => c == token
    case WipeBlob(c) => c == token
    case Forget(c) => c == token
    case Release(c, _, _) => c == token
    case _ => false
  }

  /** What a cleaner may claim: a record queued for cleanup, a failed upload, or one whose lease ran out; but none whose
      upload is running, none that another cleaner holds, has given up on, or put off to later. */
  predicate UpForCleaning(r: Record, now: int) {
    && (if r.upload == PendingUpload then r.leaseUntil.Some? && r.leaseUntil.value < now
        else r.cleanupPending || r.upload == FailedUpload)
    && (r.cleanup == Idle || (r.cleanup != Exhausted && (r.cleanerLease.None? || r.cleanerLease.value <= now)))
    && r.retries < 5
    && (r.nextRetryAt.None? || r.nextRetryAt.value <= now)
  }

  /** An intent of this upload that is still pending. */
  predicate OwnPending(f: File) {
    f.record.Some? && f.record.value.upload == PendingUpload && f.record.value.token == Some(f.writer)
  }

  /** A cleaner's minute is not over, to the second, and no other has claimed the record since. */
  predicate HoldsCleaning(f: File, token: Token) {
    && f.record.Some? && f.record.value.cleaner == Some(token)
    && f.record.value.cleanerLease.Some? && f.now <= f.record.value.cleanerLease.value
  }

  class FileStore {
    var record: Option<Record>
    var blob: bool
    var phase: Phase
    var writer: Token
    var marked: set<Token>
    var wiped: set<Token>
    var purging: bool
    var drawn: nat
    var now: int

    var role: Role
    const others: nat -> seq<Op>
    var accesses: nat

    ghost const origin: File
    ghost var history: seq<Op>

    function View(): File
      reads this
    {
      File(record, blob, phase, writer, marked, wiped, purging, drawn, now)
    }

    ghost predicate Valid()
      reads this
    {
      Init(origin) && IsRun(origin, history) && View() == Exec(origin, history) && Inv(View())
    }

    ghost predicate Quiet() { forall n :: others(n) == [] }

    constructor (f: File, role: Role, others: nat -> seq<Op>)
      requires Init(f)
      ensures Valid() && View() == f && this.role == role && this.others == others
    {
      record, blob, phase, writer, marked := f.record, f.blob, f.phase, f.writer, f.marked;
      wiped, purging, drawn, now := f.wiped, f.purging, f.drawn, f.now;
      this.role, this.others, accesses := role, others, 0;
      origin, history := f, [];
      new;
      InitEstablishes(f);
    }

    predicate Foreign(op: Op)
      reads this`role
    {
      match role
      case Uploader => !UploaderOp(op)
      case Cleaner(token) => !CleanerOp(op, token)
      case Owner => true
    }

    method Install(next: File)
      modifies this
      ensures View() == next && role == old(role) && accesses == old(accesses) && history == old(history)
    {
      record, blob, phase, writer, marked := next.record, next.blob, next.phase, next.writer, next.marked;
      wiped, purging, drawn, now := next.wiped, next.purging, next.drawn, next.now;
    }

    ghost method Log(pre: File, op: Op)
      requires Init(origin) && IsRun(origin, history) && Exec(origin, history) == pre && Inv(pre)
      requires Enabled(pre, op) && View() == Apply(pre, op)
      modifies this`history
      ensures Valid() && history == old(history) + [op]
    {
      IsRunExtends(origin, history, op);
      InvStep(pre, op);
      history := history + [op];
    }

    method Perform(op: Op)
      requires Valid() && Enabled(View(), op)
      modifies this
      ensures Valid() && role == old(role) && accesses == old(accesses) && history == old(history) + [op]
      ensures View() == Apply(old(View()), op) && Evolves(old(View()), View())
    {
      EvolvesStep(View(), op);
      Install(Apply(View(), op));
      Log(old(View()), op);
    }

    /** The enabled steps of everyone else before the next access. */
    method Interfere()
      requires Valid()
      modifies this
      ensures Valid() && role == old(role) && old(history) <= history && Evolves(old(View()), View())
      ensures role == Uploader ==> phase == old(phase) && (!old(blob) ==> !blob)
      ensures role == Uploader && phase == Finished && Stored(old(View())) && NoOwnerSteps() ==> Stored(View())
      ensures Quiet() ==> View() == old(View())
    {
      var ops := others(accesses);
      ghost var turn := accesses;
      accesses := accesses + 1;
      for i := 0 to |ops|
        invariant Valid() && role == old(role) && old(history) <= history && Evolves(old(View()), View())
        invariant role == Uploader ==> phase == old(phase) && (!old(blob) ==> !blob)
        invariant Stored(old(View())) && NoOwnerSteps() ==> Stored(View())
        invariant Quiet() ==> View() == old(View())
      {
        if Enabled(View(), ops[i]) && Foreign(ops[i]) {
          if Stored(View()) && !OwnerStep(ops[i]) { StoredStep(View(), ops[i]); }
          assert ops[i] in others(turn);
          Perform(ops[i]);
        }
      }
    }

    ghost predicate NoOwnerSteps() { forall n, op | op in others(n) :: !OwnerStep(op) }

    // -------------------------------------------------------------- uploader

    method CommitUploadedFile() returns (ok: bool)
      requires Valid() && Enabled(View(), CommitUpload)
      modifies this
      ensures Valid() && role == old(role) && history == old(history) + [CommitUpload]
      ensures ok == Accepted(old(View()), CommitUpload) && View() == Apply(old(View()), CommitUpload)
      ensures ok <==> OwnPending(old(View())) && !old(record).value.cleanupPending
                      && old(record).value.cleanup != Deleting && old(record).value.cleanup != Exhausted
      ensures record == if ok
        then Some(old(record).value.(upload := Committed, cleanupPending := false, token := None, leaseUntil := None))
        else old(record)
      ensures blob == old(blob)
    {
      ghost var pre := View();
      ok := CommitRecord();
      if ok { phase := Finished; }
      Log(pre, CommitUpload);
    }

    method CommitRecord() returns (ok: bool)
      modifies this`record
      ensures ok == CommitAccepted(old(View()))
      ensures record == if ok
        then Some(old(record).value.(upload := Committed, cleanupPending := false, token := None, leaseUntil := None))
        else old(record)
    {
      if record.None? { return false; }
      var r := record.value;
      if r.upload != PendingUpload || r.token != Some(writer) { return false; }
      if r.cleanupPending || r.cleanup == Deleting || r.cleanup == Exhausted { return false; }
      record := Some(r.(upload := Committed, cleanupPending := false, token := None, leaseUntil := None));
      return true;
    }

    method DeleteUploadIntentIfOwned() returns (ok: bool)
      requires Valid() && Enabled(View(), DropIntent)
      modifies this
      ensures Valid() && role == old(role) && history == old(history) + [DropIntent]
      ensures ok == Accepted(old(View()), DropIntent) && View() == Apply(old(View()), DropIntent)
      ensures ok <==> OwnPending(old(View())) && old(record).value.cleanup != Claimed
                      && old(record).value.cleanup != Deleting
      ensures record == (if ok then None else old(record)) && blob == old(blob)
    {
      ok := RollbackAccepted(View());
      if ok { record := None; }
      phase := Finished;
      Log(old(View()), DropIntent);
    }

    method MarkUploadFailedIfOwned() returns (ok: bool)
      requires Valid() && Enabled(View(), MarkFailed)
      modifies this
      ensures Valid() && role == old(role) && history == old(history) + [MarkFailed]
      ensures ok == Accepted(old(View()), MarkFailed) && View() == Apply(old(View()), MarkFailed)
      ensures ok <==> OwnPending(old(View())) && old(record).value.cleanup != Claimed
                      && old(record).value.cleanup != Deleting
      ensures record == if ok
        then Some(old(record).value.(upload := FailedUpload, cleanupPending := true, token := None)) else old(record)
      ensures blob == old(blob)
    {
      ok := RollbackAccepted(View());
      if ok { record := Some(record.value.(upload := FailedUpload, cleanupPending := true, token := None)); }
      phase := Finished;
      Log(old(View()), MarkFailed);
    }

    // -------------------------------------------------------------- cleaner

    method ClaimCleanupFile() returns (claimed: Option<Record>)
      requires Valid()
      modifies this
      ensures Valid() && history == old(history) + [ClaimCleanup]
      ensures View() == Apply(old(View()), ClaimCleanup)
      ensures claimed.Some? <==> old(record).Some? && UpForCleaning(old(record).value, old(now))
      ensures claimed.Some? ==> claimed == record == Some(old(record).value.(
                cleanupPending := true, cleanup := Claimed, cleaner := Some(old(drawn)),
                cleanerLease := Some(now + 60)))
      ensures claimed.None? ==> record == old(record)
      ensures blob == old(blob) && now == old(now)
      ensures role == if claimed.Some? then Cleaner(old(drawn)) else old(role)
    {
      var token := drawn;
      claimed := None;
      if ClaimAccepted(View()) {
        record := Some(record.value.(cleanupPending := true, cleanup := Claimed, cleaner := Some(token),
                                     cleanerLease := Some(now + CLEANUP_LEASE_SECONDS)));
        claimed, role := record, Cleaner(token);
      }
      drawn := drawn + 1;
      Log(old(View()), ClaimCleanup);
    }
  }

  // ---------------------------------------------------------------- uploader

  datatype WriteFate = WrittenOk | WrittenThenRaised | RaisedUnwritten

  /** One turn of the upload heartbeat. */
  datatype Beat = Answered | BeatRaised

  /** `disk` says whether a compensating deletion succeeds; `joined` whether the heartbeat thread stops
      in time. */
  datatype Script = Script(before: seq<Beat>, write: WriteFate, after: seq<Beat>, joined: bool, disk: bool)

  datatype UploadOutcome = Uploaded | LeaseNotMaintained | UploadFailed | CommitRejected

  class HeartbeatTracker {
    var healthy: bool
    var stopped: bool
    var failureCount: nat

    constructor ()
      ensures healthy && !stopped && failureCount == 0
    {
      healthy, stopped, failureCount := true, false, 0;
    }

    method RecordSuccess()
      modifies this
      ensures healthy && failureCount == 0 && stopped == old(stopped)
    {
      failureCount, healthy := 0, true;
    }

    /** Every failure counts as fatal. */
    method RecordFailure()
      modifies this
      ensures !healthy && failureCount == old(failureCount) + 1 && stopped == old(stopped)
    {
      failureCount := failureCount + 1;
      healthy := false;
    }
  }

  /** The last step was a refused renewal. */
  ghost predicate EndsInRefusedRenewal(store: FileStore)
    reads store
  {
    && store.history != [] && store.history[|store.history| - 1].RenewLease?
    && !RenewAccepted(At(store.origin, store.history, |store.history| - 1))
  }

  /** The heartbeat's last turn was answered, if it had one. */
  predicate EndsAnswered(beats: seq<Beat>) { beats == [] || beats[|beats| - 1] == Answered }

  /** The lease after so many turns: thirty seconds from now as soon as one was answered. */
  function LeaseAfter(lease: Option<int>, beats: seq<Beat>, now: int): Option<int> {
    if Answered in beats then Some(now + 30) else lease
  }

  /** A refused renewal ends the heartbeat, unhealthy; one that raised is retried, and a later success clears it. */
  method HeartbeatLoop(store: FileStore, tracker: HeartbeatTracker, beats: seq<Beat>)
    requires store.Valid() && store.role == Uploader && store.phase in {Intended, Written}
    requires tracker.stopped ==> !tracker.healthy
    modifies store, tracker
    ensures store.Valid() && store.role == Uploader && old(store.history) <= store.history
    ensures Evolves(old(store.View()), store.View()) && store.phase == old(store.phase)
    ensures tracker.stopped ==> !tracker.healthy && (old(tracker.stopped) || EndsInRefusedRenewal(store))
    ensures old(tracker.stopped) ==> tracker.stopped
    ensures !tracker.stopped ==>
              tracker.healthy == if beats == [] then old(tracker.healthy) else EndsAnswered(beats)
    ensures store.Quiet() ==> store.blob == old(store.blob) && store.writer == old(store.writer)
    ensures store.Quiet() && RenewAccepted(old(store.View())) ==> RenewAccepted(store.View())
    ensures store.Quiet() && RenewAccepted(old(store.View())) ==>
              && tracker.stopped == old(tracker.stopped)
              && store.now == old(store.now)
              && (!tracker.stopped ==> store.record == Some(old(store.record).value.(
                   leaseUntil := LeaseAfter(old(store.record).value.leaseUntil, beats, store.now))))
    ensures store.Quiet() && !RenewAccepted(old(store.View())) ==> !RenewAccepted(store.View())
    ensures store.Quiet() && !RenewAccepted(old(store.View())) && Answered in beats ==> tracker.stopped
  {
    hide FileStore.Valid, Apply, EndsInRefusedRenewal;
    var i := 0;
    while i < |beats| && !tracker.stopped
      invariant 0 <= i <= |beats|
      invariant store.Valid() && store.role == Uploader && old(store.history) <= store.history
      invariant Evolves(old(store.View()), store.View()) && store.phase == old(store.phase)
      invariant tracker.stopped ==> !tracker.healthy && (old(tracker.stopped) || EndsInRefusedRenewal(store))
      invariant old(tracker.stopped) ==> tracker.stopped
      invariant store.Quiet() ==> store.blob == old(store.blob) && store.writer == old(store.writer)
      invariant store.Quiet() ==> RenewAccepted(store.View()) == RenewAccepted(old(store.View()))
      invariant !tracker.stopped ==>
                  tracker.healthy == if i == 0 then old(tracker.healthy) else EndsAnswered(beats[..i])
      invariant store.Quiet() && RenewAccepted(old(store.View())) ==>
                  && tracker.stopped == old(tracker.stopped)
                  && store.now == old(store.now)
                  && (!tracker.stopped ==> store.record == Some(old(store.record).value.(
                       leaseUntil := LeaseAfter(old(store.record).value.leaseUntil, beats[..i], store.now))))
      invariant store.Quiet() && !RenewAccepted(old(store.View())) && Answered in beats[..i] ==> tracker.stopped
      decreases |beats| - i
    {
      store.Interfere();
      if beats[i] == BeatRaised {
        tracker.RecordFailure();
      } else {
        Renew(store, tracker);
      }
      assert beats[..i + 1] == beats[..i] + [beats[i]];
      i := i + 1;
    }
    assert beats[..|beats|] == beats;
  }

  /** One renewal that is answered. */
  method Renew(store: FileStore, tracker: HeartbeatTracker)
    requires store.Valid() && store.phase != NotStarted && !tracker.stopped
    modifies store, tracker
    ensures store.Valid() && store.role == old(store.role) && old(store.history) <= store.history
    ensures store.View() == Apply(old(store.View()), RenewLease(30)) && Evolves(old(store.View()), store.View())
    ensures store.phase == old(store.phase) && store.blob == old(store.blob) && store.writer == old(store.writer)
    ensures store.now == old(store.now) && RenewAccepted(store.View()) == RenewAccepted(old(store.View()))
    ensures RenewAccepted(old(store.View()))
       <==> OwnPending(old(store.View())) && !old(store.record).value.cleanupPending
            && old(store.record).value.cleanup != Deleting && old(store.record).value.cleanup != Exhausted
    ensures RenewAccepted(old(store.View())) ==>
              && tracker.healthy && !tracker.stopped
              && store.record == Some(old(store.record).value.(leaseUntil := Some(old(store.now) + 30)))
    ensures !RenewAccepted(old(store.View())) ==> !tracker.healthy && tracker.stopped && EndsInRefusedRenewal(store)
  {
    var renewed := RenewAccepted(store.View());
    ghost var before := store.history;
    store.Perform(RenewLease(30));
    assert store.history[..|before|] == before;
    if renewed {
      tracker.RecordSuccess();
    } else {
      tracker.RecordFailure();
      tracker.stopped := true;
    }
  }

  /** Rolls a failed upload back: the blob first, and its intent only once the blob is gone. */
  method CompensateFailedIntent(store: FileStore, disk: bool)
    requires store.Valid() && store.role == Uploader && store.phase in {Intended, Written}
    modifies store
    ensures store.Valid() && old(store.history) <= store.history
    ensures store.phase == Finished
    ensures store.record.Some? ==> store.record.value.upload != Committed
    ensures disk ==> !store.blob
    ensures store.Quiet() && RenewAccepted(old(store.View())) ==>
              if disk then store.record == None && !store.blob
              else store.blob == old(store.blob) && store.record == Some(old(store.record).value.(
                     upload := FailedUpload, cleanupPending := true, token := None))
  {
    store.Interfere();
    if disk {
      store.Perform(RemoveBlob);
      store.Interfere();
      var _ := store.DeleteUploadIntentIfOwned();
    } else {
      store.Perform(GiveUp);
      store.Interfere();
      var _ := store.MarkUploadFailedIfOwned();
    }
  }

  /** The heartbeat could be joined, and its last turn was answered. */
  predicate WellBeaten(script: Script) { script.joined && EndsAnswered(script.before + script.after) }

  predicate Smooth(script: Script) {
    script.write == WrittenOk && WellBeaten(script)
  }

  /** The blob write under its heartbeat. `raised` says the write itself failed. */
  method WriteUnderHeartbeat(store: FileStore, script: Script) returns (raised: bool, healthy: bool)
    requires store.Valid() && store.role == Uploader && store.phase == Intended
    modifies store
    ensures store.Valid() && store.role == Uploader && old(store.history) <= store.history
    ensures store.phase in {Intended, Written}
    ensures !raised ==> store.phase == Written
    ensures raised == (script.write != WrittenOk)
    ensures healthy ==> WellBeaten(script)
    ensures store.Quiet() && !RenewAccepted(old(store.View())) && Answered in script.before ==> !healthy
    ensures store.Quiet() && RenewAccepted(old(store.View())) ==>
              && RenewAccepted(store.View())
              && healthy == WellBeaten(script)
              && store.blob == (old(store.blob) || script.write != RaisedUnwritten)
              && store.record == Some(old(store.record).value.(
                   leaseUntil := LeaseAfter(old(store.record).value.leaseUntil, script.before + script.after,
                                            old(store.now))))
  {
    hide FileStore.Valid, EndsInRefusedRenewal, Evolves;
    var tracker := new HeartbeatTracker();
    HeartbeatLoop(store, tracker, script.before);
    store.Interfere();
    raised := script.write != WrittenOk;
    if script.write != RaisedUnwritten { store.Perform(WriteBlob); }
    HeartbeatLoop(store, tracker, script.after);
    if !script.joined { tracker.RecordFailure(); }
    healthy := tracker.healthy;
  }

  /** The two-phase upload. `committedAt` is the step of the store's history at which the upload was
      committed. */
  method UploadFile(store: FileStore, script: Script) returns (outcome: UploadOutcome, ghost committedAt: nat)
    requires store.Valid() && store.role == Uploader && store.phase == NotStarted
    modifies store
    ensures store.Valid() && old(store.history) <= store.history
    ensures outcome == Uploaded ==>
              && committedAt <= |store.history|
              && Stored(Exec(store.origin, store.history[..committedAt]))
              && (store.NoOwnerSteps() ==> Stored(store.View()))
    ensures outcome != Uploaded ==> store.record.Some? ==> store.record.value.upload != Committed
    ensures outcome != Uploaded && script.disk ==> !store.blob
    ensures outcome == UploadFailed <==> script.write != WrittenOk
    ensures script.write == WrittenOk && !WellBeaten(script) ==> outcome == LeaseNotMaintained
    ensures store.Quiet() && Smooth(script) ==>
              && outcome == Uploaded && store.blob
              && store.record == Some(Record(Committed, None, None, false, Idle, 0, None, None, None))
    ensures store.Quiet() && !Smooth(script) && script.disk ==> store.record == None && !store.blob
    ensures store.Quiet() && !Smooth(script) && !script.disk ==>
              && store.blob == (old(store.blob) || script.write != RaisedUnwritten)
              && store.record == Some(Record(FailedUpload, None,
                   LeaseAfter(Some(old(store.now) + 60), script.before + script.after, old(store.now)),
                   true, Idle, 0, None, None, None))
  {
    hide FileStore.Valid, LeaseAfter, WellBeaten, Stored, Exec, RollbackAccepted;
    committedAt := 0;
    store.Interfere();
    store.Perform(SaveIntent);
    var raised, healthy := WriteUnderHeartbeat(store, script);
    if raised {
      CompensateFailedIntent(store, script.disk);
      return UploadFailed, 0;
    }
    if !healthy {
      CompensateFailedIntent(store, script.disk);
      return LeaseNotMaintained, 0;
    }
    outcome, committedAt := CommitOrRollBack(store, script.disk);
  }

  method CommitOrRollBack(store: FileStore, disk: bool) returns (outcome: UploadOutcome, ghost committedAt: nat)
    requires store.Valid() && store.role == Uploader && store.phase == Written
    modifies store
    ensures store.Valid() && old(store.history) <= store.history
    ensures outcome in {Uploaded, CommitRejected}
    ensures 0 < committedAt <= |store.history| && store.history[committedAt - 1] == CommitUpload
    ensures outcome == Uploaded <==> CommitAccepted(At(store.origin, store.history, committedAt - 1))
    ensures outcome == Uploaded ==>
              && committedAt <= |store.history|
              && Stored(Exec(store.origin, store.history[..committedAt]))
              && (store.NoOwnerSteps() ==> Stored(store.View()))
    ensures outcome != Uploaded ==> store.record.Some? ==> store.record.value.upload != Committed
    ensures outcome != Uploaded && disk ==> !store.blob
    ensures store.Quiet() && RenewAccepted(old(store.View())) ==>
              && outcome == Uploaded && store.blob == old(store.blob)
              && store.record == Some(old(store.record).value.(
                   upload := Committed, cleanupPending := false, token := None, leaseUntil := None))
    ensures store.Quiet() && outcome != Uploaded ==> !RenewAccepted(old(store.View()))
  {
    store.Interfere();
    ghost var before := store.history;
    var ok := store.CommitUploadedFile();
    ghost var committed := store.history;
    committedAt := |committed|;
    assert committed[..committedAt] == committed && committed[..committedAt - 1] == before;
    if !ok {
      CompensateFailedIntent(store, disk);
      assert store.history[..committedAt - 1] == before;
      return CommitRejected, committedAt;
    }
    assert Stored(Exec(store.origin, committed));
    store.Interfere();
    assert store.history[..committedAt] == committed && store.history[..committedAt - 1] == before;
    outcome := Uploaded;
  }

  // ---------------------------------------------------------------- cleaner

  /** A record that a cleaner gave back: it waits ten, twenty, forty seconds and so on, and in the end for good. */
  function PutOff(r: Record, now: int): Record {
    r.(cleanupPending := true, retries := r.retries + 1, cleaner := None, cleanerLease := None,
       cleanup := if r.retries >= 4 then Exhausted else Idle,
       nextRetryAt := Some(now + 5 * Numerals.PowerOfTwo(r.retries + 1)))
  }

  datatype CleanOutcome = NotClaimed | LeaseLost | Cleaned | Retrying

  /** One candidate of the cleanup job: claim, mark, wipe, forget, each its own access. */
  method CleanFile(store: FileStore, disk: bool) returns (outcome: CleanOutcome)
    requires store.Valid()
    modifies store
    ensures store.Valid() && old(store.history) <= store.history
    ensures store.Quiet() ==>
              (outcome == NotClaimed
               <==> old(store.record).None? || !UpForCleaning(old(store.record).value, old(store.now)))
    ensures store.Quiet() && outcome == NotClaimed ==>
              store.record == old(store.record) && store.blob == old(store.blob)
    ensures store.Quiet() && outcome != NotClaimed && disk ==>
              outcome == Cleaned && store.record == None && !store.blob
    ensures store.Quiet() && outcome != NotClaimed && !disk ==>
              && outcome == Retrying
              && store.blob == old(store.blob)
              && store.record == Some(PutOff(old(store.record).value, old(store.now)))
  {
    hide FileStore.Valid, UpForCleaning, Numerals.PowerOfTwo;
    var claimed, marked, token := TakeFile(store);
    if claimed.None? { return NotClaimed; }
    if !marked { return LeaseLost; }
    store.Interfere();
    if disk {
      outcome := WipeAndForget(store, token);
    } else {
      GiveBack(store, token, claimed.value.retries + 1);
      outcome := Retrying;
    }
  }

  method TakeFile(store: FileStore) returns (claimed: Option<Record>, marked: bool, token: Token)
    requires store.Valid()
    modifies store
    ensures store.Valid() && old(store.history) <= store.history
    ensures claimed.Some? ==> store.role == Cleaner(token)
    ensures claimed.Some? && marked ==> token in store.marked
    ensures claimed.Some? ==>
              && |store.history| > 0 && store.history[|store.history| - 1] == MarkDeleting(token)
              && var before := At(store.origin, store.history, |store.history| - 1);
                 (marked <==> HoldsCleaning(before, token)
                              && (before.record.value.cleanup == Claimed || before.record.value.cleanup == Deleting))
    ensures store.Quiet() ==>
              && (claimed.Some? <==> old(store.record).Some? && UpForCleaning(old(store.record).value, old(store.now)))
              && store.blob == old(store.blob) && store.now == old(store.now)
              && (claimed.None? ==> store.record == old(store.record))
    ensures store.Quiet() && claimed.Some? ==>
              && marked
              && HoldsCleaning(store.View(), token)
              && claimed.value.retries == old(store.record).value.retries
              && store.record == Some(old(store.record).value.(
                   cleanupPending := true, cleanup := Deleting, cleaner := Some(token),
                   cleanerLease := Some(store.now + 60)))
  {
    store.Interfere();
    claimed := store.ClaimCleanupFile();
    marked, token := false, 0;
    if claimed.Some? {
      token := store.role.token;
      store.Interfere();
      ghost var before := store.history;
      marked := MarkAccepted(store.View(), token);
      store.Perform(MarkDeleting(token));
      assert store.history[..|before|] == before;
    }
  }

  /** The disk refused: the lease is released with one more retry counted. */
  method GiveBack(store: FileStore, token: Token, retries: nat)
    requires store.Valid() && store.role == Cleaner(token)
    modifies store
    ensures store.Valid() && old(store.history) <= store.history
    ensures HoldsCleaning(old(store.View()), token) ==>
              store.View() == old(store.View()).(record := Some(old(store.record).value.(
                retries := old(store.record).value.retries + 1, cleaner := None, cleanerLease := None,
                cleanup := if retries >= 5 then Exhausted else Idle,
                nextRetryAt := Some(store.now + 5 * Numerals.PowerOfTwo(retries)))))
    ensures !HoldsCleaning(old(store.View()), token) ==> store.View() == old(store.View())
  {
    store.Perform(Release(token, Some(store.now + BackoffSeconds(retries)), retries >= MAX_CLEANUP_RETRIES));
  }

  function BackoffSeconds(retries: nat): nat { Numerals.PowerOfTwo(retries) * 5 }

  /** After the first refusal ten seconds, and twice as long after each further one. */
  lemma CleanupDelays(retries: nat)
    ensures BackoffSeconds(1) == 10 && BackoffSeconds(retries + 1) == 2 * BackoffSeconds(retries)
  {
    assert Numerals.PowerOfTwo(1) == 2 * Numerals.PowerOfTwo(0);
  }

  method WipeAndForget(store: FileStore, token: Token) returns (outcome: CleanOutcome)
    requires store.Valid() && store.role == Cleaner(token) && token in store.marked
    modifies store
    ensures store.Valid() && old(store.history) <= store.history
    ensures outcome in {Cleaned, LeaseLost}
    ensures outcome == Cleaned ==> store.record == None
    ensures |store.history| > 0 && store.history[|store.history| - 1] == Forget(token)
    ensures var before := At(store.origin, store.history, |store.history| - 1);
            && (outcome == Cleaned <==> HoldsCleaning(before, token))
            && (outcome == LeaseLost ==> store.record == before.record)
    ensures store.Quiet() ==> (outcome == Cleaned <==> HoldsCleaning(old(store.View()), token)) && !store.blob
  {
    store.Perform(WipeBlob(token));
    store.Interfere();
    var held := LeaseHeld(store.View(), token);
    ghost var before := store.history;
    store.Perform(Forget(token));
    assert store.history[..|before|] == before;
    outcome := if held then Cleaned else LeaseLost;
  }

  // ---------------------------------------------------------------- owner

  /** Deletes a file by the committed record that the caller had read, however long ago: the blob first, the record only
      afterwards. If the disk refuses, that copy is saved back and queued for cleanup. Another deletion may have
      been faster. */
  method DeleteFilePermanently(store: FileStore, copy: Record, disk: bool) returns (deleted: bool)
    requires store.Valid() && store.role == Owner
    requires CommittedOnce(store.View()) && copy.upload == Committed && SoundRecord(copy, store.drawn)
    modifies store
    ensures store.Valid() && old(store.history) <= store.history
    ensures deleted == disk
    ensures disk ==> store.record == None && !store.blob
    ensures disk ==> store.history != [] && store.history[|store.history| - 1] == PurgeRecord
    ensures !disk ==> store.history != [] && store.history[|store.history| - 1] == QueueCleanup(copy)
    ensures !disk ==> store.record == Some(copy.(cleanupPending := true))
    ensures !disk ==> store.blob == At(store.origin, store.history, |store.history| - 1).blob
    ensures !disk && store.Quiet() ==> store.blob == old(store.blob)
  {
    deleted := disk;
    store.Interfere();
    if disk {
      store.Perform(Purge);
      store.Interfere();
      store.Perform(PurgeRecord);
    } else {
      ghost var before := store.history;
      store.Perform(QueueCleanup(copy));
      assert store.history[..|before|] == before;
    }
  }
}
