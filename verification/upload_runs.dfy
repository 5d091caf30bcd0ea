/** Statements about whole runs of the upload protocol. */
module UploadRuns {
  import opened Options
  import opened UploadProtocol

  function Exec(f: File, ops: seq<Op>): File {
    if ops == [] then f else Apply(Exec(f, ops[..|ops| - 1]), ops[|ops| - 1])
  }

  predicate IsRun(f: File, ops: seq<Op>) {
    ops == [] ||
    var n := |ops| - 1;
    IsRun(f, ops[..n]) && Enabled(Exec(f, ops[..n]), ops[n])
  }

  function At(f: File, ops: seq<Op>, k: nat): File
    requires k <= |ops|
  {
    Exec(f, ops[..k])
  }

  lemma AtNext(f: File, ops: seq<Op>, k: nat)
    requires k < |ops|
    ensures At(f, ops, k + 1) == Apply(At(f, ops, k), ops[k])
  {
    assert ops[..k + 1][..k] == ops[..k];
  }

  lemma IsRunExtends(f: File, ops: seq<Op>, op: Op)
    requires IsRun(f, ops) && Enabled(Exec(f, ops), op)
    ensures IsRun(f, ops + [op]) && Exec(f, ops + [op]) == Apply(Exec(f, ops), op)
  {
    assert (ops + [op])[..|ops|] == ops;
  }

  lemma {:induction false} EnabledAt(f: File, ops: seq<Op>, k: nat)
    requires IsRun(f, ops) && k < |ops|
    ensures Enabled(At(f, ops, k), ops[k])
  {
    if k < |ops| - 1 {
      var front := ops[..|ops| - 1];
      EnabledAt(f, front, k);
      assert front[..k] == ops[..k];
    }
  }

  lemma {:induction false} InvAlways(f: File, ops: seq<Op>, k: nat)
    requires Inv(f) && IsRun(f, ops) && k <= |ops|
    ensures Inv(At(f, ops, k))
  {
    if k > 0 {
      InvAlways(f, ops, k - 1);
      EnabledAt(f, ops, k - 1);
      AtNext(f, ops, k - 1);
      InvStep(At(f, ops, k - 1), ops[k - 1]);
    }
  }

  // ---------------------------------------------------------------- orphans

  /** No blob is ever without a record, at any point of any run in which no blob is written late. */
  lemma {:induction false} NoOrphanUnlessLateWrite(f: File, ops: seq<Op>, k: nat)
    requires Inv(f) && Guarded(f) && IsRun(f, ops) && k <= |ops|
    requires forall i | 0 <= i < |ops| && ops[i].WriteBlob? :: !Endangered(At(f, ops, i))
    ensures Guarded(At(f, ops, k)) && NoOrphan(At(f, ops, k))
  {
    if k > 0 {
      NoOrphanUnlessLateWrite(f, ops, k - 1);
      InvAlways(f, ops, k - 1);
      EnabledAt(f, ops, k - 1);
      AtNext(f, ops, k - 1);
      GuardedStep(At(f, ops, k - 1), ops[k - 1]);
    }
  }

  /** The uploader writes at most once. */
  lemma {:induction false} NoWriteAfter(f: File, ops: seq<Op>, k: nat)
    requires IsRun(f, ops) && k <= |ops| && f.phase !in {NotStarted, Intended}
    ensures At(f, ops, k).phase !in {NotStarted, Intended}
    ensures k < |ops| ==> !ops[k].WriteBlob?
  {
    if k > 0 {
      NoWriteAfter(f, ops, k - 1);
      EnabledAt(f, ops, k - 1);
      AtNext(f, ops, k - 1);
    }
    if k < |ops| { EnabledAt(f, ops, k); }
  }

  /** No continuation, of whatever length, orphans the blob. */
  ghost predicate NeverOrphaned(f: File) {
    forall ops: seq<Op> | IsRun(f, ops) :: NoOrphan(Exec(f, ops))
  }

  lemma Orphaning(f: File, ops: seq<Op>)
    requires IsRun(f, ops) && !NoOrphan(Exec(f, ops))
    ensures !NeverOrphaned(f)
  {
  }

  /** Exactly when writing the blob is safe: if and only if at the write the record exists and no
      cleaner that has already wiped can still forget it. */
  lemma WriteIsSafeIffNotEndangered(f: File)
    requires Inv(f) && Enabled(f, WriteBlob)
    ensures NeverOrphaned(Apply(f, WriteBlob)) <==> !Endangered(f)
  {
    var g := Apply(f, WriteBlob);
    if !Endangered(f) {
      InvStep(f, WriteBlob);
      GuardedStep(f, WriteBlob);
      forall ops: seq<Op> | IsRun(g, ops) ensures NoOrphan(Exec(g, ops)) {
        forall i | 0 <= i < |ops| ensures !ops[i].WriteBlob? { NoWriteAfter(g, ops, i); }
        NoOrphanUnlessLateWrite(g, ops, |ops|);
        assert ops[..|ops|] == ops;
      }
    } else if f.record.None? {
      Orphaning(g, []);
    } else {
      var c :| c in f.wiped && LeaseHeld(f, c);
      IsRunExtends(g, [], Forget(c));
      Orphaning(g, [] + [Forget(c)]);
    }
  }

  /** With cleaners that claim only after the uploader stopped writing, no run has an orphan. */
  lemma NoOrphanIfClaimsWait(f: File, ops: seq<Op>, k: nat)
    requires Init(f) && IsRun(f, ops) && k <= |ops|
    requires forall i | 0 <= i < |ops| && ops[i].ClaimCleanup? && Accepted(At(f, ops, i), ops[i]) ::
               At(f, ops, i).phase != Intended
    ensures NoOrphan(At(f, ops, k))
  {
    InitEstablishes(f);
    forall i | 0 <= i < |ops| && ops[i].WriteBlob? ensures !Endangered(At(f, ops, i)) {
      EnabledAt(f, ops, i);
      IntentUntouched(f, ops, i);
      InvAlways(f, ops, i);
    }
    NoOrphanUnlessLateWrite(f, ops, k);
  }

  lemma {:induction false} IntentUntouched(f: File, ops: seq<Op>, k: nat)
    requires Init(f) && IsRun(f, ops) && k <= |ops|
    requires forall i | 0 <= i < |ops| && ops[i].ClaimCleanup? && Accepted(At(f, ops, i), ops[i]) ::
               At(f, ops, i).phase != Intended
    ensures At(f, ops, k).phase == Intended ==> At(f, ops, k).record.Some? && !At(f, ops, k).record.value.cleanupPending
  {
    if k > 0 {
      IntentUntouched(f, ops, k - 1);
      InitEstablishes(f);
      InvAlways(f, ops, k - 1);
      EnabledAt(f, ops, k - 1);
      AtNext(f, ops, k - 1);
      assert ops[k - 1].ClaimCleanup? && Accepted(At(f, ops, k - 1), ops[k - 1]) ==>
          At(f, ops, k - 1).phase != Intended;
    }
  }

  // ---------------------------------------------------------------- progress of the bookkeeping

  /** What later states owe to earlier ones. */
  predicate Evolves(f: File, g: File) {
    && (f.phase == Finished ==> g.phase == Finished && (!f.blob ==> !g.blob))
    && f.marked <= g.marked
    && f.wiped <= g.wiped
    && f.drawn <= g.drawn
    && f.now <= g.now
    && (f.purging ==> g.purging)
    && (CommittedOnce(f) ==> CommittedOnce(g))
    && (f.phase != NotStarted ==> g.phase != NotStarted && g.writer == f.writer)
  }

  lemma EvolvesStep(f: File, op: Op)
    requires Inv(f) && Enabled(f, op)
    ensures Evolves(f, Apply(f, op))
  {
  }

  // ---------------------------------------------------------------- commit

  /** A commit is accepted only while the blob is there. */
  lemma CommittedHasBlob(f: File, ops: seq<Op>, k: nat)
    requires Init(f) && IsRun(f, ops) && k < |ops| && ops[k].CommitUpload? && Accepted(At(f, ops, k), ops[k])
    ensures At(f, ops, k + 1).record.Some? && At(f, ops, k + 1).record.value.upload == Committed
    ensures At(f, ops, k).blob && At(f, ops, k + 1).blob
  {
    InitEstablishes(f);
    InvAlways(f, ops, k);
    EnabledAt(f, ops, k);
    AtNext(f, ops, k);
  }

  predicate OwnerStep(op: Op) { op.Purge? || op.QueueCleanup? }

  predicate Stored(f: File) {
    f.record.Some? && f.record.value.upload == Committed && f.blob && !f.purging
  }

  lemma StoredStep(f: File, op: Op)
    requires Inv(f) && Stored(f) && Enabled(f, op) && !OwnerStep(op)
    ensures Stored(Apply(f, op))
  {
  }

  /** Neither a compensation nor a cleaner ever removes a committed file's record or blob: only its
      owner's deletion does. */
  lemma {:induction false} CommittedStaysUnlessPurged(f: File, ops: seq<Op>, j: nat, k: nat)
    requires Init(f) && IsRun(f, ops) && j <= k <= |ops|
    requires Stored(At(f, ops, j))
    requires forall i | j <= i < k :: !OwnerStep(ops[i])
    ensures Stored(At(f, ops, k))
    decreases k
  {
    if j < k {
      CommittedStaysUnlessPurged(f, ops, j, k - 1);
      InitEstablishes(f);
      InvAlways(f, ops, k - 1);
      EnabledAt(f, ops, k - 1);
      AtNext(f, ops, k - 1);
      StoredStep(At(f, ops, k - 1), ops[k - 1]);
    }
  }

  /** Commit and cleanup exclude each other: once a cleaner has claimed the intent, it is never
      committed. */
  lemma {:induction false} ClaimedIsNeverCommitted(f: File, ops: seq<Op>, j: nat, k: nat)
    requires Init(f) && IsRun(f, ops) && j < k < |ops|
    requires ops[j].ClaimCleanup? && Accepted(At(f, ops, j), ops[j])
    ensures !(ops[k].CommitUpload? && Accepted(At(f, ops, k), ops[k]))
  {
    ClaimSticks(f, ops, j, k);
  }

  predicate OutOfReach(f: File) {
    f.phase != NotStarted && (f.record.Some? ==> f.record.value.cleanupPending)
  }

  lemma {:induction false} ClaimSticks(f: File, ops: seq<Op>, j: nat, k: nat)
    requires Init(f) && IsRun(f, ops) && j < k <= |ops|
    requires ops[j].ClaimCleanup? && Accepted(At(f, ops, j), ops[j])
    ensures OutOfReach(At(f, ops, k))
    decreases k
  {
    hide IsRun, Exec;
    InitEstablishes(f);
    InvAlways(f, ops, k - 1);
    EnabledAt(f, ops, k - 1);
    AtNext(f, ops, k - 1);
    if j < k - 1 { ClaimSticks(f, ops, j, k - 1); }
  }

  // ---------------------------------------------------------------- a gap

  lemma Extend(f: File, ops: seq<Op>, op: Op, g: File)
    requires IsRun(f, ops) && Exec(f, ops) == g && Enabled(g, op)
    ensures IsRun(f, ops + [op]) && Exec(f, ops + [op]) == Apply(g, op)
  {
    IsRunExtends(f, ops, op);
  }

  /** A writer that stalls past its grace period, without renewing, can be overtaken by a complete
      cleanup and then leave an orphan. */
  lemma StalledWriterOrphans(f: File) returns (ops: seq<Op>)
    requires Init(f)
    ensures IsRun(f, ops) && !NoOrphan(Exec(f, ops))
  {
    var c := f.drawn + 1;
    Extend(f, [], SaveIntent, f);
    var o1, f1 := [] + [SaveIntent], Apply(f, SaveIntent);
    Extend(f, o1, Elapse(GRACE_SECONDS + 1), f1);
    var o2, f2 := o1 + [Elapse(GRACE_SECONDS + 1)], Apply(f1, Elapse(GRACE_SECONDS + 1));
    Extend(f, o2, ClaimCleanup, f2);
    var o3, f3 := o2 + [ClaimCleanup], Apply(f2, ClaimCleanup);
    Extend(f, o3, MarkDeleting(c), f3);
    var o4, f4 := o3 + [MarkDeleting(c)], Apply(f3, MarkDeleting(c));
    Extend(f, o4, WipeBlob(c), f4);
    var o5, f5 := o4 + [WipeBlob(c)], Apply(f4, WipeBlob(c));
    Extend(f, o5, Forget(c), f5);
    var o6, f6 := o5 + [Forget(c)], Apply(f5, Forget(c));
    Extend(f, o6, WriteBlob, f6);
    ops := o6 + [WriteBlob];
  }

  // ---------------------------------------------------------------- a running upload is left alone

  /** The intent is saved, for a minute, or its lease renewed for so many seconds. */
  predicate LeasesIntent(f: File, op: Op, seconds: nat) {
    (op.SaveIntent? && seconds == 60) || (op == RenewLease(seconds) && Accepted(f, op))
  }

  /** As long as the upload is pending its lease ends then. */
  predicate PendingUntil(f: File, until: int) {
    && f.phase != NotStarted
    && (f.record.Some? && f.record.value.upload == PendingUpload ==> f.record.value.leaseUntil == Some(until))
  }

  lemma IntentIsLeased(f: File, op: Op, seconds: nat)
    requires Enabled(f, op) && LeasesIntent(f, op, seconds)
    ensures PendingUntil(Apply(f, op), f.now + seconds) && Apply(f, op).phase != NotStarted
  {
  }

  lemma PendingStep(f: File, op: Op, until: int)
    requires Inv(f) && Enabled(f, op) && PendingUntil(f, until) && !(op.RenewLease? && Accepted(f, op))
    ensures PendingUntil(Apply(f, op), until)
  {
  }

  lemma {:induction false} PendingStays(f: File, ops: seq<Op>, seconds: nat, j: nat, k: nat)
    requires Init(f) && IsRun(f, ops) && j < k <= |ops| && LeasesIntent(At(f, ops, j), ops[j], seconds)
    requires forall i | j < i < k && ops[i].RenewLease? :: !Accepted(At(f, ops, i), ops[i])
    ensures PendingUntil(At(f, ops, k), At(f, ops, j).now + seconds)
    decreases k
  {
    hide IsRun, Apply, PendingUntil, Inv, LeasesIntent;
    EnabledAt(f, ops, k - 1);
    AtNext(f, ops, k - 1);
    if j == k - 1 {
      IntentIsLeased(At(f, ops, j), ops[j], seconds);
    } else {
      PendingStays(f, ops, seconds, j, k - 1);
      InitEstablishes(f);
      InvAlways(f, ops, k - 1);
      PendingStep(At(f, ops, k - 1), ops[k - 1], At(f, ops, j).now + seconds);
    }
  }

  /** As long as an upload is pending no cleaner's claim is accepted within a minute of its intent, or within the
      renewed time of its last renewal, whatever the others do. */
  lemma RunningUploadIsLeftAlone(f: File, ops: seq<Op>, seconds: nat, j: nat, k: nat)
    requires Init(f) && IsRun(f, ops) && j < k < |ops| && LeasesIntent(At(f, ops, j), ops[j], seconds)
    requires forall i | j < i < k && ops[i].RenewLease? :: !Accepted(At(f, ops, i), ops[i])
    requires ops[k].ClaimCleanup? && At(f, ops, k).now <= At(f, ops, j).now + seconds
    ensures Accepted(At(f, ops, k), ops[k]) ==> At(f, ops, k).record.value.upload != PendingUpload
  {
    PendingStays(f, ops, seconds, j, k);
  }

  // ---------------------------------------------------------------- what comes back

  /** A deletion that takes the record away. */
  predicate TakesAway(f: File, op: Op) { op.PurgeRecord? || (op.Forget? && Accepted(f, op)) }

  ghost predicate KeptSince(f: File, ops: seq<Op>, q: nat, k: nat)
    requires k <= |ops|
  {
    forall i | q < i < k :: !TakesAway(At(f, ops, i), ops[i])
  }

  /** Some copy was saved back in between, and nothing has taken it away since. */
  ghost predicate SavedBack(f: File, ops: seq<Op>, j: nat, k: nat)
    requires j <= k <= |ops|
  {
    exists q | j <= q < k :: ops[q].QueueCleanup? && KeptSince(f, ops, q, k)
  }

  /** The writer is done, and a record there is was saved back by a deletion that failed: it is queued for cleanup, and
      there is no file to it. */
  predicate Bygone(f: File) {
    && f.phase == Finished
    && (f.record.Some? ==> f.purging && f.record.value.upload == Committed && f.record.value.cleanupPending && !f.blob)
  }

  lemma BygoneStep(f: File, op: Op)
    requires Inv(f) && Bygone(f) && Enabled(f, op)
    ensures Bygone(Apply(f, op))
    ensures Apply(f, op).record.Some? <==> op.QueueCleanup? || (f.record.Some? && !TakesAway(f, op))
  {
  }

  lemma SavedBackStep(f: File, ops: seq<Op>, j: nat, k: nat)
    requires j < k <= |ops|
    ensures SavedBack(f, ops, j, k) <==>
              ops[k - 1].QueueCleanup? || (SavedBack(f, ops, j, k - 1) && !TakesAway(At(f, ops, k - 1), ops[k - 1]))
  {
    assert KeptSince(f, ops, k - 1, k);
    forall q: nat | q < k - 1
      ensures KeptSince(f, ops, q, k) <==> KeptSince(f, ops, q, k - 1) && !TakesAway(At(f, ops, k - 1), ops[k - 1])
    {
    }
    assert TakesAway(At(f, ops, k - 1), ops[k - 1]) ==> !ops[k - 1].QueueCleanup?;
  }

  /** A record that is gone once its writer is done is back later if and only if a deletion that failed saved a copy
      back in between and nothing took that away; and then it is only queued for cleanup, without a file. */
  lemma {:induction false} GoneIsBackIffSavedBack(f: File, ops: seq<Op>, j: nat, k: nat)
    requires Init(f) && IsRun(f, ops) && j <= k <= |ops|
    requires At(f, ops, j).record.None? && At(f, ops, j).phase == Finished
    ensures At(f, ops, k).record.Some? <==> SavedBack(f, ops, j, k)
    ensures Bygone(At(f, ops, k))
    decreases k
  {
    if j < k {
      GoneIsBackIffSavedBack(f, ops, j, k - 1);
      InitEstablishes(f);
      InvAlways(f, ops, k - 1);
      EnabledAt(f, ops, k - 1);
      AtNext(f, ops, k - 1);
      BygoneStep(At(f, ops, k - 1), ops[k - 1]);
      SavedBackStep(f, ops, j, k);
    }
  }

  /** It stays gone if and only if no deletion fails meanwhile. */
  lemma GoneStaysGoneIffNothingSavedBack(f: File, ops: seq<Op>, j: nat, k: nat)
    requires Init(f) && IsRun(f, ops) && j <= k <= |ops|
    requires At(f, ops, j).record.None? && At(f, ops, j).phase == Finished
    ensures (forall i | j <= i <= k :: At(f, ops, i).record.None?) <==> (forall i | j <= i < k :: !ops[i].QueueCleanup?)
  {
    forall i | j <= i <= k ensures At(f, ops, i).record.Some? <==> SavedBack(f, ops, j, i) {
      GoneIsBackIffSavedBack(f, ops, j, i);
    }
    if q :| j <= q < k && ops[q].QueueCleanup? {
      SavedBackStep(f, ops, j, q + 1);
      assert At(f, ops, q + 1).record.Some?;
    }
  }

  /** What listing and searching the files of a space let through. */
  predicate Listed(r: Record) { !r.cleanupPending && r.upload == Committed }

  /** Two owners delete a file. The first one's deletion takes blob and record away; the second one's fails, and saves
      the copy back that it had read before: then there is a record, not listed, queued for cleanup, and no file. */
  lemma StaleCopyRevivesRecord(f: File) returns (ops: seq<Op>, gone: nat)
    requires Init(f)
    ensures IsRun(f, ops) && gone < |ops|
    ensures At(f, ops, gone).phase == Finished && At(f, ops, gone).record.None? && !At(f, ops, gone).blob
    ensures forall i | gone <= i < |ops| :: ops[i].QueueCleanup?
    ensures var g := Exec(f, ops);
            g.record.Some? && g.record.value.cleanupPending && !Listed(g.record.value) && !g.blob
  {
    Extend(f, [], SaveIntent, f);
    var o1, f1 := [] + [SaveIntent], Apply(f, SaveIntent);
    Extend(f, o1, WriteBlob, f1);
    var o2, f2 := o1 + [WriteBlob], Apply(f1, WriteBlob);
    Extend(f, o2, CommitUpload, f2);
    var o3, f3 := o2 + [CommitUpload], Apply(f2, CommitUpload);
    Extend(f, o3, Purge, f3);
    var o4, f4 := o3 + [Purge], Apply(f3, Purge);
    Extend(f, o4, PurgeRecord, f4);
    var o5, f5 := o4 + [PurgeRecord], Apply(f4, PurgeRecord);
    var copy := f3.record.value;
    Extend(f, o5, QueueCleanup(copy), f5);
    ops, gone := o5 + [QueueCleanup(copy)], |o5|;
    assert ops[..gone] == o5;
  }
}
