/** One uploaded file under a freshly generated id: its metadata record, its physical blob, the one
    uploader that may write the blob, and the cleaners. A crash is an actor that takes no further
    step. */
module UploadProtocol {
  import opened Options

  type Token = nat

  datatype UploadStatus = PendingUpload | Committed | FailedUpload
  datatype CleanupStatus = Idle | Claimed | Deleting | Exhausted

  datatype Record = Record(
    upload: UploadStatus,
    token: Option<Token>,
    leaseUntil: Option<int>,
    cleanupPending: bool,
    cleanup: CleanupStatus,
    retries: nat,
    nextRetryAt: Option<int>,
    cleaner: Option<Token>,
    cleanerLease: Option<int>)

  /** How far the uploader is. */
  datatype Phase = NotStarted | Intended | Written | Compensating | Finished

  /** `drawn` counts the fencing and lease tokens drawn so far; the next one is `drawn` itself.
      `marked` and `wiped` are the cleaners that entered the deleting state and that removed the blob;
      `purging` says an owner's deletion of the committed file is under way. */
  datatype File = File(
    record: Option<Record>,
    blob: bool,
    phase: Phase,
    writer: Token,
    marked: set<Token>,
    wiped: set<Token>,
    purging: bool,
    drawn: nat,
    now: int)

  datatype Op =
    | Elapse(seconds: nat)
    | SaveIntent
    | RenewLease(seconds: nat)
    | WriteBlob
    | CommitUpload
    | GiveUp
    | RemoveBlob
    | DropIntent
    | MarkFailed
    | ClaimCleanup
    | MarkDeleting(cleaner: Token)
    | WipeBlob(cleaner: Token)
    | Forget(cleaner: Token)
    | Release(cleaner: Token, nextRetryAt: Option<int>, terminal: bool)
    | Purge
    | PurgeRecord
    | QueueCleanup(copy: Record)

  const GRACE_SECONDS: int := 60
  const CLEANUP_LEASE_SECONDS: int := 60
  const MAX_CLEANUP_RETRIES: nat := 5

  // ---------------------------------------------------------------- guards

  predicate OwnedIntent(f: File) {
    && f.record.Some?
    && f.record.value.upload == PendingUpload
    && f.record.value.token == Some(f.writer)
  }

  predicate RenewAccepted(f: File) {
    OwnedIntent(f) && !f.record.value.cleanupPending && f.record.value.cleanup !in {Deleting, Exhausted}
  }

  predicate CommitAccepted(f: File) { RenewAccepted(f) }

  predicate RollbackAccepted(f: File) {
    OwnedIntent(f) && f.record.value.cleanup !in {Claimed, Deleting}
  }

  predicate Abandoned(r: Record, now: int) {
    r.upload == PendingUpload && r.leaseUntil.Some? && r.leaseUntil.value < now
  }

  predicate ClaimAccepted(f: File) {
    && f.record.Some?
    && var r := f.record.value;
    && (r.upload == PendingUpload ==> Abandoned(r, f.now))
    && (r.cleanupPending || r.upload == FailedUpload || Abandoned(r, f.now))
    && r.cleanup != Exhausted
    && (r.cleanup in {Claimed, Deleting} ==> r.cleanerLease.None? || r.cleanerLease.value <= f.now)
    && r.retries < MAX_CLEANUP_RETRIES
    && (r.nextRetryAt.Some? ==> r.nextRetryAt.value <= f.now)
  }

  predicate LeaseHeld(f: File, cleaner: Token) {
    && f.record.Some?
    && f.record.value.cleaner == Some(cleaner)
    && f.record.value.cleanerLease.Some?
    && f.record.value.cleanerLease.value >= f.now
  }

  predicate MarkAccepted(f: File, cleaner: Token) {
    LeaseHeld(f, cleaner) && f.record.value.cleanup in {Claimed, Deleting}
  }

  predicate Accepted(f: File, op: Op) {
    match op
    case RenewLease(_) => RenewAccepted(f)
    case CommitUpload => CommitAccepted(f)
    case DropIntent => RollbackAccepted(f)
    case MarkFailed => RollbackAccepted(f)
    case ClaimCleanup => ClaimAccepted(f)
    case MarkDeleting(c) => MarkAccepted(f, c)
    case Forget(c) => LeaseHeld(f, c)
    case Release(c, _, _) => LeaseHeld(f, c)
    case _ => true
  }

  function Apply(f: File, op: Op): File {
    match op
    case Elapse(seconds) => f.(now := f.now + seconds)
    case SaveIntent =>
      f.(record := Some(Record(PendingUpload, Some(f.drawn), Some(f.now + GRACE_SECONDS), false, Idle, 0, None,
                               None, None)),
         phase := Intended, writer := f.drawn, drawn := f.drawn + 1)
    case RenewLease(seconds) =>
      if RenewAccepted(f) then f.(record := Some(f.record.value.(leaseUntil := Some(f.now + seconds)))) else f
    case WriteBlob => f.(blob := true, phase := Written)
    case CommitUpload =>
      if CommitAccepted(f)
      then f.(record := Some(f.record.value.(upload := Committed, cleanupPending := false, token := None,
                                             leaseUntil := None)),
              phase := Finished)
      else f
    case GiveUp => f.(phase := Compensating)
    case RemoveBlob => f.(blob := false, phase := Compensating)
    case DropIntent => if RollbackAccepted(f) then f.(record := None, phase := Finished) else f.(phase := Finished)
    case MarkFailed =>
      if RollbackAccepted(f)
      then f.(record := Some(f.record.value.(upload := FailedUpload, cleanupPending := true, token := None)),
              phase := Finished)
      else f.(phase := Finished)
    case ClaimCleanup =>
      if ClaimAccepted(f)
      then f.(record := Some(f.record.value.(cleanupPending := true, cleanup := Claimed, cleaner := Some(f.drawn),
                                             cleanerLease := Some(f.now + CLEANUP_LEASE_SECONDS))),
              drawn := f.drawn + 1)
      else f.(drawn := f.drawn + 1)
    case MarkDeleting(c) =>
      if MarkAccepted(f, c)
      then f.(record := Some(f.record.value.(cleanup := Deleting)), marked := f.marked + {c}) else f
    case WipeBlob(c) => f.(blob := false, wiped := f.wiped + {c})
    case Forget(c) => if LeaseHeld(f, c) then f.(record := None) else f
    case Release(c, next, terminal) =>
      if LeaseHeld(f, c)
      then f.(record := Some(f.record.value.(retries := f.record.value.retries + 1, cleaner := None,
                                             cleanerLease := None, cleanup := if terminal then Exhausted else Idle,
                                             nextRetryAt := next)))
      else f
    case Purge => f.(blob := false, purging := true)
    case PurgeRecord => f.(record := None)
    case QueueCleanup(copy) => f.(record := Some(copy.(cleanupPending := true)), purging := true)
  }

  /** A committed record was there to be read. */
  predicate CommittedOnce(f: File) { f.purging || (f.record.Some? && f.record.value.upload == Committed) }

  /** What holds of every record ever stored. */
  predicate SoundRecord(r: Record, drawn: nat) {
    && (r.cleaner.Some? ==> r.cleaner.value < drawn && r.cleanup in {Claimed, Deleting})
    && (r.cleanup in {Claimed, Deleting} ==> r.cleanupPending)
  }

  /** The order in which each program issues its steps: the uploader saves its intent once, writes the
      blob once, commits only what it wrote and rolls back only what it did not commit; a cleaner wipes
      only after marking and forgets only after wiping; an owner purges only a file whose committed record it
      had read, however long ago, and deletes the record only afterwards; an owner whose deletion failed saves back
      the copy that it had read. A heartbeat thread can outlive its upload. */
  predicate Enabled(f: File, op: Op) {
    match op
    case SaveIntent => f.phase == NotStarted
    case RenewLease(_) => f.phase != NotStarted
    case WriteBlob => f.phase == Intended
    case CommitUpload => f.phase == Written
    case GiveUp => f.phase in {Intended, Written}
    case RemoveBlob => f.phase in {Intended, Written, Compensating}
    case DropIntent => f.phase == Compensating && !f.blob
    case MarkFailed => f.phase == Compensating
    case WipeBlob(c) => c in f.marked
    case Forget(c) => c in f.wiped
    case Purge => CommittedOnce(f)
    case PurgeRecord => f.purging && !f.blob
    case QueueCleanup(copy) => CommittedOnce(f) && copy.upload == Committed && SoundRecord(copy, f.drawn)
    case _ => true
  }

  // ---------------------------------------------------------------- properties

  predicate Init(f: File) {
    f.record == None && !f.blob && f.phase == NotStarted && f.marked == {} && f.wiped == {} && !f.purging
  }

  /** Every stored blob has a metadata record. */
  predicate NoOrphan(f: File) { f.blob ==> f.record.Some? }

  /** A blob written now could outlive its record: the record is gone, or a cleaner that has already
      wiped can still delete it. */
  predicate Endangered(f: File) {
    f.record.None? || exists c :: c in f.wiped && LeaseHeld(f, c)
  }

  predicate Inv(f: File) {
    && (forall c | c in f.marked :: c < f.drawn)
    && f.wiped <= f.marked
    && (f.record.Some? ==> SoundRecord(f.record.value, f.drawn))
    // before anything claims the record, nothing has been marked
    && (f.record.Some? && !f.record.value.cleanupPending ==> f.marked == {})
    // a pending intent that nobody claimed keeps what its uploader wrote
    && (f.phase == Written && f.record.Some? && !f.record.value.cleanupPending ==> f.blob)
    // a committed record whose owner does not delete it has its blob, and no cleaner
    && (f.record.Some? && f.record.value.upload == Committed ==> f.phase == Finished)
    && (f.record.Some? && f.record.value.upload == Committed && !f.purging ==> f.blob && !f.record.value.cleanupPending)
    // once it was committed, what a cleaner wiped stays wiped
    && (CommittedOnce(f) && f.wiped != {} ==> !f.blob)
    && (f.purging ==> f.phase == Finished && (f.record.None? ==> !f.blob))
    && (f.phase == NotStarted ==> f.record.None? && !f.blob && f.marked == {})
    && (f.phase == Intended ==> !f.blob)
  }

  /** A present blob is safe from every cleaner that has already wiped. */
  predicate Guarded(f: File) { f.blob ==> !Endangered(f) }

  lemma InitEstablishes(f: File)
    requires Init(f)
    ensures Inv(f) && Guarded(f)
  {
  }

  lemma InvStep(f: File, op: Op)
    requires Inv(f) && Enabled(f, op)
    ensures Inv(Apply(f, op))
  {
  }

  lemma GuardedStep(f: File, op: Op)
    requires Inv(f) && Guarded(f) && Enabled(f, op)
    requires op.WriteBlob? ==> !Endangered(f)
    ensures Guarded(Apply(f, op)) && NoOrphan(Apply(f, op))
  {
  }
}
