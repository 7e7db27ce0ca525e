/** The provider-independent generation task: its persisted facts, the worker
    lease, and every domain transition a repository transaction may apply.
    Each transition either returns the next row or names the refusal; it never
    changes a row in place. */
module GenerationTask {
  import opened Base

  datatype Purpose = Image | Model

  datatype Status = Queued | Running | Validating | Succeeded | Failed | Canceled | Expired

  datatype Submission = NotStarted | InFlight | Unknown | Accepted

  datatype Role = Person | Garment | LookImage

  datatype Reference = Reference(media: Id, role: Role, ordinal: nat, revision: nat, sha: Id)

  datatype Cost = Cost(currency: Option<Id>, minorUnits: nat, quotaUnits: nat)

  /** The columns that are written once, when the task is accepted. */
  datatype Facts = Facts(
    id: Id, owner: Id, look: Id, lookRevision: nat, purpose: Purpose, provider: Id,
    references: seq<Reference>, imageAsset: Option<Id>, imageSha: Option<Id>,
    cost: Cost, policyVersion: Id, consentedAt: Time, idempotency: Id, dedupe: Id, createdAt: Time)

  datatype Task = Task(
    facts: Facts, status: Status, revision: nat,
    submission: Submission, submissionAttempt: nat, startedAt: Option<Time>, unknownAt: Option<Time>,
    nextAttemptAt: Option<Time>, cancelRequestedAt: Option<Time>, revokedAt: Option<Time>,
    externalID: Option<Id>, result: Option<Id>, failureCode: Option<Id>,
    leaseOwner: Option<Id>, fencing: nat, leaseAttempt: nat, leaseUntil: Option<Time>, updatedAt: Time)

  /** The worker proof carried between short transactions. */
  datatype Lease = Lease(task: Id, owner: Id, token: nat, attempt: nat, expiresAt: Time)

  predicate Terminal(s: Status) { s.Succeeded? || s.Failed? || s.Canceled? || s.Expired? }

  predicate CanTransition(s: Status, next: Status) {
    match s
    case Queued => next.Running? || next.Failed? || next.Canceled? || next.Expired?
    case Running => next.Validating? || next.Failed? || next.Canceled? || next.Expired?
    case Validating => Terminal(next)
    case _ => false
  }

  predicate FailureShape(s: Status, code: Option<Id>) { s.Failed? <==> code.Some? }

  // ---------------------------------------------------------------- validity

  function CountRole(refs: seq<Reference>, role: Role): nat {
    if refs == [] then 0
    else (if refs[0].role == role then 1 else 0) + CountRole(refs[1..], role)
  }

  predicate ValidSnapshot(f: Facts) {
    && 1 <= |f.references| <= 4
    && (forall r :: r in f.references ==> r.revision >= 1)
    && (forall i, j :: 0 <= i < j < |f.references| ==>
          f.references[i].media != f.references[j].media && f.references[i].ordinal != f.references[j].ordinal)
    && (if f.purpose.Model? then
          && f.imageAsset.Some? && f.imageSha.Some?
          && CountRole(f.references, LookImage) == 1
          && CountRole(f.references, Person) == 0 && CountRole(f.references, Garment) == 0
          && (forall r :: r in f.references && r.role.LookImage? ==>
                r.media == f.imageAsset.value && r.sha == f.imageSha.value)
        else
          && f.imageAsset.None? && f.imageSha.None?
          && CountRole(f.references, Person) == 1 && 1 <= CountRole(f.references, Garment) <= 3
          && CountRole(f.references, LookImage) == 0)
  }

  predicate ValidFacts(f: Facts) {
    && f.lookRevision >= 1 && ValidSnapshot(f)
    && (f.cost.minorUnits > 0 ==> f.cost.currency.Some?)
    && 0 < f.consentedAt <= f.createdAt
  }

  predicate Within(moment: Option<Time>, t: Task) {
    moment.None? || t.facts.createdAt <= moment.value <= t.updatedAt
  }

  predicate SubmissionFacts(t: Task) {
    && (t.startedAt.Some? ==> 0 < t.startedAt.value <= t.updatedAt)
    && (t.unknownAt.Some? ==> t.startedAt.Some? && t.startedAt.value <= t.unknownAt.value <= t.updatedAt)
    && match t.submission
       case NotStarted =>
         && t.externalID.None? && t.unknownAt.None?
         && (if t.submissionAttempt == 0 then t.startedAt.None? && t.nextAttemptAt.None? else t.startedAt.Some?)
       case InFlight =>
         && t.externalID.None? && t.submissionAttempt > 0 && t.startedAt.Some?
         && t.unknownAt.None? && t.nextAttemptAt.None?
       case Unknown =>
         && t.externalID.None? && t.submissionAttempt > 0 && t.startedAt.Some?
         && t.unknownAt.Some? && t.nextAttemptAt.None?
       case Accepted =>
         && t.externalID.Some? && t.submissionAttempt > 0 && t.unknownAt.None?
         && (t.nextAttemptAt.None? || t.status.Running? || t.status.Validating?)
  }

  predicate CoreFacts(t: Task) {
    && ValidFacts(t.facts) && t.revision >= 1 && t.facts.createdAt <= t.updatedAt
    && FailureShape(t.status, t.failureCode) && SubmissionFacts(t)
    && Within(t.startedAt, t) && Within(t.unknownAt, t) && Within(t.cancelRequestedAt, t) && Within(t.revokedAt, t)
    && (t.nextAttemptAt.Some? ==> t.facts.createdAt <= t.nextAttemptAt.value)
    && (t.nextAttemptAt.Some? && t.submission.Accepted? ==>
          (t.status.Running? || t.status.Validating?) && t.revokedAt.None?)
    && (t.status.Succeeded? ==> t.result.Some?)
    && (t.result.Some? ==> t.status.Succeeded? || t.status.Validating?)
  }

  predicate LeaseFacts(t: Task) {
    && (t.leaseUntil.None? <==> t.leaseOwner.None?)
    && (t.leaseUntil.Some? ==>
          !Terminal(t.status) && t.leaseUntil.value > 0 && t.fencing > 0 && t.leaseAttempt > 0)
  }

  predicate Valid(t: Task) { CoreFacts(t) && LeaseFacts(t) }

  // ------------------------------------------------------------- transitions

  function Transition(t: Task, next: Status, code: Option<Id>, at: Time): Result<Task, Error> {
    if !Valid(t) || !CanTransition(t.status, next) || at == 0 then Err(InvalidState)
    else if Terminal(next) && (t.leaseOwner.Some? || t.leaseUntil.Some?) then Err(InvalidState)
    else if !FailureShape(next, code) then Err(InvalidState)
    else if next.Succeeded? && (t.cancelRequestedAt.Some? || t.revokedAt.Some?) then Err(InvalidState)
    else if next.Succeeded? && t.result.None? then Err(OutputRequired)
    else if !next.Succeeded? && t.result.Some? then Err(InvalidState)
    else if at < t.updatedAt || t.revision >= MAX_INT then Err(InvalidState)
    else Ok(t.(status := next, revision := t.revision + 1, updatedAt := at, failureCode := code, nextAttemptAt := None))
  }

  function RequestCancel(t: Task, at: Time): Result<Task, Error> {
    if at == 0 then Err(NotCancellable)
    else if !Valid(t) then Err(InvalidState)
    else if t.status.Canceled? then Ok(t)
    else if Terminal(t.status) then Err(NotCancellable)
    else if t.cancelRequestedAt.Some? then Ok(t)
    else if at < t.updatedAt || t.revision >= MAX_INT then Err(InvalidState)
    else Ok(t.(cancelRequestedAt := Some(at), nextAttemptAt := None, revision := t.revision + 1, updatedAt := at))
  }

  function RevokeAccess(t: Task, at: Time): Result<Task, Error> {
    if at == 0 || !Valid(t) then Err(InvalidState)
    else if t.revokedAt.Some? then Ok(t)
    else if at < t.updatedAt || t.revision >= MAX_INT then Err(InvalidState)
    else Ok(t.(revokedAt := Some(at), nextAttemptAt := None, revision := t.revision + 1, updatedAt := at))
  }

  // ------------------------------------------------------------------- lease

  /** The lease of a task that holds one. */
  function CurrentLease(t: Task): Lease
    requires t.leaseUntil.Some? && t.leaseOwner.Some?
  {
    Lease(t.facts.id, t.leaseOwner.value, t.fencing, t.leaseAttempt, t.leaseUntil.value)
  }

  function AcquireLease(t: Task, owner: Id, at: Time, ttl: Time): Result<Task, Error> {
    if at == 0 || ttl == 0 then Err(InvalidLease)
    else if Terminal(t.status) || !CoreFacts(t) then Err(InvalidState)
    else if !LeaseFacts(t) || at < t.updatedAt then Err(InvalidLease)
    else if t.leaseUntil.Some? && at < t.leaseUntil.value then Err(LeaseHeld)
    else if t.nextAttemptAt.Some? && at < t.nextAttemptAt.value then Err(RetryNotReady)
    else if t.fencing >= MAX_TOKEN || t.leaseAttempt >= MAX_INT then Err(InvalidLease)
    else
      var moved :- if t.status.Queued? then Transition(t, Running, None, at)
                   else if t.revision >= MAX_INT then Err(InvalidState)
                   else Ok(t.(nextAttemptAt := None, revision := t.revision + 1, updatedAt := at));
      Ok(moved.(fencing := t.fencing + 1, leaseAttempt := t.leaseAttempt + 1,
                leaseOwner := Some(owner), leaseUntil := Some(at + ttl)))
  }

  /** Whether the task itself holds a lease that is live at `at`. */
  function ActiveLease(t: Task, at: Time): Result<(), Error> {
    if !Valid(t) then Err(InvalidLease)
    else if t.leaseUntil.None? then Err(LeaseConflict)
    else if at == 0 || at < t.updatedAt then Err(InvalidLease)
    else if t.leaseUntil.value <= at then Err(LeaseExpired)
    else Ok(())
  }

  /** Whether `lease` is the live lease of the task at `at`. */
  function ValidateLease(t: Task, lease: Lease, at: Time): Result<(), Error> {
    if !Valid(t) || lease.task != t.facts.id || lease.token == 0 || lease.attempt == 0 || lease.expiresAt == 0 then
      Err(InvalidLease)
    else if t.leaseOwner != Some(lease.owner) || t.fencing != lease.token || t.leaseAttempt != lease.attempt
            || t.leaseUntil != Some(lease.expiresAt) then Err(LeaseConflict)
    else ActiveLease(t, at)
  }

  /** The proof a repository checks before any worker write: the live lease
      while the task is active, the last fencing token once it is terminal. */
  function WorkerProof(t: Task, lease: Lease, at: Time): Result<(), Error> {
    if Terminal(t.status) then
      if lease.task != t.facts.id || lease.token == 0 || lease.attempt == 0
         || t.fencing != lease.token || t.leaseAttempt != lease.attempt then Err(LeaseConflict)
      else Ok(())
    else ValidateLease(t, lease, at)
  }

  function RenewLease(t: Task, lease: Lease, at: Time, ttl: Time): Result<Task, Error> {
    var _ :- ValidateLease(t, lease, at);
    if ttl == 0 || at + ttl <= lease.expiresAt || t.revision >= MAX_INT then Err(InvalidLease)
    else Ok(t.(leaseUntil := Some(at + ttl), revision := t.revision + 1, updatedAt := at))
  }

  function ReleaseLease(t: Task, lease: Lease, at: Time): Result<Task, Error> {
    var _ :- ValidateLease(t, lease, at);
    if t.revision >= MAX_INT then Err(InvalidLease)
    else Ok(t.(leaseOwner := None, leaseUntil := None, revision := t.revision + 1, updatedAt := at))
  }

  // ------------------------------------------- mutations behind a worker proof

  datatype RetryPolicy = RetryPolicy(maxAttempts: nat, baseDelay: Time, maxDelay: Time)

  /** The longest worker retry delay: thirty minutes. */
  const MAX_RETRY_DELAY: Time := 1_800_000_000

  predicate ValidPolicy(p: RetryPolicy) {
    1 <= p.maxAttempts <= 10 && 0 < p.baseDelay <= p.maxDelay
  }

  /** Doubling from the base delay, capped at the maximum delay. */
  function DelayFor(p: RetryPolicy, attempt: nat): (d: Time)
    requires ValidPolicy(p) && attempt >= 1
    ensures p.baseDelay <= d <= p.maxDelay
  {
    if attempt == 1 then p.baseDelay
    else
      var earlier := DelayFor(p, attempt - 1);
      if 2 * earlier >= p.maxDelay then p.maxDelay else 2 * earlier
  }

  datatype Mutation =
    | ReleaseForRetry(delay: Time)
    | BeginSubmission
    | MarkSubmissionUnknown
    | NotAccepted
    | ScheduleRetry(policy: RetryPolicy)
    | RecordExternalID(external: Id)
    | ApplyProviderState(observed: Id, next: Status, code: Option<Id>)

  /** Time spent queued and waiting counts; a zero timeout disables the limit. */
  predicate ProcessingExpired(createdAt: Time, timeout: Time, at: Time) {
    timeout > 0 && createdAt + timeout <= at
  }

  predicate Submittable(s: Status) { s.Queued? || s.Running? }

  function Mutate(t: Task, lease: Lease, m: Mutation, timeout: Time, at: Time): Result<Task, Error> {
    match m
    case ReleaseForRetry(delay) => ReleaseLeaseForRetry(t, lease, at, delay)
    case BeginSubmission =>
      if ProcessingExpired(t.facts.createdAt, timeout, at) then Err(TimedOut) else BeginSubmit(t, at)
    case MarkSubmissionUnknown =>
      if !Valid(t) || !t.submission.InFlight? || at == 0 then Err(InvalidState)
      else
        var _ :- ActiveLease(t, at);
        if t.revision >= MAX_INT then Err(InvalidState)
        else Ok(t.(submission := Unknown, unknownAt := Some(at), revision := t.revision + 1, updatedAt := at))
    case NotAccepted => ReconcileNotAccepted(t, at)
    case ScheduleRetry(policy) => ScheduleSubmissionRetry(t, at, policy)
    case RecordExternalID(external) => RecordExternal(t, external, at)
    case ApplyProviderState(observed, next, code) => Observe(t, observed, next, code, at)
  }

  function ReleaseLeaseForRetry(t: Task, lease: Lease, at: Time, delay: Time): Result<Task, Error> {
    if delay == 0 || delay > MAX_RETRY_DELAY || !Valid(t) || !t.submission.Accepted?
       || !(t.status.Running? || t.status.Validating?) || t.revokedAt.Some? then Err(InvalidLease)
    else
      var _ :- ValidateLease(t, lease, at);
      if t.revision >= MAX_INT then Err(InvalidLease)
      else Ok(t.(leaseOwner := None, leaseUntil := None, nextAttemptAt := Some(at + delay),
                 revision := t.revision + 1, updatedAt := at))
  }

  function BeginSubmit(t: Task, at: Time): Result<Task, Error> {
    if !Valid(t) || !Submittable(t.status) || t.cancelRequestedAt.Some? || t.revokedAt.Some? || t.externalID.Some? then
      Err(NotSubmittable)
    else
      var _ :- ActiveLease(t, at);
      match t.submission
      case InFlight => Err(SubmissionInProgress)
      case Unknown => Err(OutcomeUnknown)
      case Accepted => Err(NotSubmittable)
      case NotStarted =>
        if t.submissionAttempt >= MAX_INT then Err(InvalidState)
        else if t.nextAttemptAt.Some? && at < t.nextAttemptAt.value then Err(RetryNotReady)
        else if t.revision >= MAX_INT then Err(InvalidState)
        else Ok(t.(submission := InFlight, submissionAttempt := t.submissionAttempt + 1, startedAt := Some(at),
                   revision := t.revision + 1, updatedAt := at, nextAttemptAt := None))
  }

  function ReconcileNotAccepted(t: Task, at: Time): Result<Task, Error> {
    if !Valid(t) || !t.submission.Unknown? || at == 0 then Err(InvalidState)
    else
      var _ :- ActiveLease(t, at);
      if t.revision >= MAX_INT then Err(InvalidState)
      else Ok(t.(submission := NotStarted, unknownAt := None, revision := t.revision + 1, updatedAt := at))
  }

  function ScheduleSubmissionRetry(t: Task, at: Time, p: RetryPolicy): Result<Task, Error> {
    if !Valid(t) || !Submittable(t.status) || t.cancelRequestedAt.Some? || t.revokedAt.Some? || t.externalID.Some?
       || !t.submission.NotStarted? || t.submissionAttempt == 0 || at == 0 then Err(InvalidState)
    else if !ValidPolicy(p) then Err(InvalidInput)
    else
      var _ :- ActiveLease(t, at);
      if t.nextAttemptAt.Some? then Ok(t)
      else if t.submissionAttempt >= p.maxAttempts then Err(RetryExhausted)
      else if t.revision >= MAX_INT then Err(InvalidState)
      else Ok(t.(nextAttemptAt := Some(at + DelayFor(p, t.submissionAttempt)), revision := t.revision + 1,
                 updatedAt := at))
  }

  /** A late identity is still recorded on a terminal task, so that cleanup can
      find the provider task; a second identity is never accepted. */
  function RecordExternal(t: Task, external: Id, at: Time): Result<Task, Error> {
    if !Valid(t) || at == 0 then Err(InvalidState)
    else if t.externalID.Some? then
      if t.externalID.value != external then Err(ExternalConflict) else Ok(t)
    else if at < t.facts.createdAt then Err(InvalidState)
    else
      var _ :- if Terminal(t.status) then Ok(()) else ActiveLease(t, at);
      if t.submission.Accepted? || t.revision >= MAX_INT then Err(InvalidState)
      else Ok(t.(externalID := Some(external), submission := Accepted, unknownAt := None, nextAttemptAt := None,
                 submissionAttempt := Max(t.submissionAttempt, 1), revision := t.revision + 1,
                 updatedAt := Max(t.updatedAt, at)))
  }

  function Observe(t: Task, observed: Id, next: Status, code: Option<Id>, at: Time): Result<Task, Error> {
    if t.externalID != Some(observed) then Err(ExternalConflict)
    else if !Valid(t) || at == 0 || !FailureShape(next, code) then Err(InvalidState)
    else
      var _ :- if Terminal(t.status) then Ok(()) else ActiveLease(t, at);
      if next.Succeeded? then Err(if Terminal(t.status) then InvalidState else OutputRequired)
      else if next == t.status then (if code != t.failureCode then Err(InvalidState) else Ok(t))
      else if Terminal(next) then Err(InvalidState)
      else Transition(t, next, code, at)
  }

  // -------------------------------------------------------------- settlement

  datatype ReservationState = Reserved | Released | Consumed

  datatype Reservation = Reservation(
    task: Id, owner: Id, purpose: Purpose, cost: Cost, state: ReservationState, revision: nat,
    createdAt: Time, updatedAt: Time)

  datatype ContentType = Jpeg | Glb

  /** The one private object key a task may publish to. */
  datatype ObjectKey = OutputKey(owner: Id, task: Id, purpose: Purpose)

  datatype Asset = Asset(
    id: Id, task: Id, owner: Id, look: Id, lookRevision: nat, purpose: Purpose,
    sourceImage: Option<Id>, sourceSha: Option<Id>,
    contentType: ContentType, byteSize: nat, sha: Id, key: ObjectKey, version: Id, publishedAt: Time)

  /** The write set of a terminal transaction. */
  datatype Settlement = Settlement(
    task: Task, reservation: Option<Reservation>, asset: Option<Asset>, token: nat, reused: bool)

  const MAX_IMAGE_BYTES: nat := 12_582_912
  const MAX_MODEL_BYTES: nat := 10_485_760

  function KeyOf(f: Facts): ObjectKey { OutputKey(f.owner, f.id, f.purpose) }

  predicate HasCost(c: Cost) { c.quotaUnits != 0 || c.minorUnits != 0 }

  predicate ValidReservation(r: Reservation) {
    && HasCost(r.cost) && (r.cost.minorUnits > 0 ==> r.cost.currency.Some?)
    && 0 < r.createdAt <= r.updatedAt
    && r.revision == (if r.state.Reserved? then 1 else 2)
  }

  predicate ReservationMatches(t: Task, r: Option<Reservation>) {
    match r
    case None => !HasCost(t.facts.cost)
    case Some(h) =>
      && HasCost(t.facts.cost) && ValidReservation(h) && t.facts.createdAt <= h.createdAt
      && h.task == t.facts.id && h.owner == t.facts.owner && h.purpose == t.facts.purpose && h.cost == t.facts.cost
  }

  predicate ValidAsset(t: Task, a: Asset) {
    && t.revokedAt.None?
    && a.task == t.facts.id && a.owner == t.facts.owner && a.purpose == t.facts.purpose
    && a.look == t.facts.look && a.lookRevision == t.facts.lookRevision
    && 0 < a.publishedAt && t.facts.createdAt <= a.publishedAt
    && (if t.status.Succeeded? then a.publishedAt <= t.updatedAt else t.updatedAt <= a.publishedAt)
    && 1 <= a.byteSize <= (if t.facts.purpose.Image? then MAX_IMAGE_BYTES else MAX_MODEL_BYTES)
    && a.contentType == (if t.facts.purpose.Image? then Jpeg else Glb)
    && a.sourceImage == t.facts.imageAsset && a.sourceSha == t.facts.imageSha
    && a.key == KeyOf(t.facts)
  }

  predicate Holds(r: Option<Reservation>, s: ReservationState) { r.None? || r.value.state == s }

  function Close(r: Reservation, next: ReservationState, at: Time): Result<Reservation, Error> {
    if at == 0 || !ValidReservation(r) then Err(InvalidReservation)
    else if r.state == next then Ok(r)
    else if !r.state.Reserved? then Err(ReservationClosed)
    else if at < r.updatedAt then Err(InvalidReservation)
    else Ok(r.(state := next, revision := r.revision + 1, updatedAt := at))
  }

  function CloseHold(r: Option<Reservation>, next: ReservationState, at: Time): Result<Option<Reservation>, Error> {
    match r
    case None => Ok(None)
    case Some(h) =>
      match Close(h, next, at)
      case Ok(closed) => Ok(Some(closed))
      case Err(_) => Err(InvalidSettlement)
  }

  predicate SettlementLease(t: Task, at: Time) {
    if Terminal(t.status) then t.leaseOwner.None? && t.leaseUntil.None?
    else if t.leaseUntil.None? then t.leaseOwner.None?
    else ActiveLease(t, at).Ok?
  }

  /** An overdue task may still carry an expired lease. */
  predicate ExpiredLease(t: Task, at: Time) {
    t.leaseUntil.Some? && t.leaseOwner.Some? && t.leaseUntil.value <= at && LeaseFacts(t)
  }

  function PublishOutput(t: Task, r: Option<Reservation>, a: Asset, at: Time): Result<Settlement, Error> {
    if !Valid(t) || at == 0 || at < t.updatedAt || !ValidAsset(t, a) || at < a.publishedAt
      || !ReservationMatches(t, r) then
      Err(InvalidSettlement)
    else if t.status.Succeeded? then
      if !SettlementLease(t, at) then Err(InvalidSettlement)
      else if t.result != Some(a.id) || !Holds(r, Consumed) then Err(SettlementConflict)
      else Ok(Settlement(t, r, Some(a), t.fencing, true))
    else if !t.status.Validating? || t.cancelRequestedAt.Some? || t.result.Some? || ActiveLease(t, at).Err?
            || !Holds(r, Reserved) then Err(InvalidSettlement)
    else
      match Transition(t.(result := Some(a.id), leaseOwner := None, leaseUntil := None), Succeeded, None, at)
      case Err(_) => Err(InvalidSettlement)
      case Ok(done) =>
        var closed :- CloseHold(r, Consumed, at);
        Ok(Settlement(done, closed, Some(a), t.fencing, false))
  }

  function FinalizeWithoutOutput(t: Task, r: Option<Reservation>, next: Status, code: Option<Id>, at: Time)
    : Result<Settlement, Error>
  {
    if !Valid(t) || at == 0 || at < t.updatedAt
       || !(SettlementLease(t, at) || (next.Expired? && ExpiredLease(t, at)))
       || !Terminal(next) || next.Succeeded? || !ReservationMatches(t, r) || !FailureShape(next, code) then
      Err(InvalidSettlement)
    else if t.status == next then
      if t.result.Some? || t.failureCode != code || !Holds(r, Released) then Err(SettlementConflict)
      else Ok(Settlement(t, r, None, t.fencing, true))
    else if Terminal(t.status) || !Holds(r, Reserved) then Err(InvalidSettlement)
    else
      match Transition(t.(leaseOwner := None, leaseUntil := None), next, code, at)
      case Err(_) => Err(InvalidSettlement)
      case Ok(done) =>
        var closed :- CloseHold(r, Released, at);
        Ok(Settlement(done, closed, None, t.fencing, false))
  }

  // -------------------------------------------------- what every row change is

  /** The relation between an earlier and a later row of one task that every
      transaction keeps. It is reflexive and transitive, so it also relates the
      first and last rows of a run. */
  predicate Advances(a: Task, b: Task) {
    && b.facts == a.facts
    && a.revision <= b.revision && (a.revision == b.revision ==> a == b)
    && a.fencing <= b.fencing && (a.fencing == b.fencing ==> a.leaseAttempt == b.leaseAttempt)
    && a.updatedAt <= b.updatedAt
    && (Terminal(a.status) ==> b.status == a.status && b.fencing == a.fencing)
    && (a.revokedAt.Some? ==> b.revokedAt == a.revokedAt)
    && (a.cancelRequestedAt.Some? ==> b.cancelRequestedAt == a.cancelRequestedAt)
    && (a.externalID.Some? ==> b.externalID == a.externalID)
    && (a.result.Some? ==> b.result == a.result)
  }

  /** A change that leaves settlement and visibility alone: the task stays
      active (or stays exactly as terminal as it was), nothing is revoked. */
  predicate Quiet(a: Task, b: Task) {
    && Advances(a, b)
    && (Terminal(a.status) <==> Terminal(b.status)) && a.revokedAt == b.revokedAt && a.result == b.result
  }

  lemma MutateIsQuiet(t: Task, lease: Lease, m: Mutation, timeout: Time, at: Time)
    requires Valid(t) && (t.result.Some? ==> t.status.Succeeded?)
    requires WorkerProof(t, lease, at).Ok? && Mutate(t, lease, m, timeout, at).Ok?
    ensures var b := Mutate(t, lease, m, timeout, at).value;
            && Valid(b) && Quiet(t, b) && b.fencing == t.fencing
            && (b.externalID != t.externalID ==> m.RecordExternalID?)
  {
  }

  /** What an acquisition writes. */
  predicate Acquired(t: Task, b: Task, owner: Id, at: Time, ttl: Time) {
    && b == t.(status := if t.status.Queued? then Running else t.status, nextAttemptAt := None,
               failureCode := b.failureCode, revision := t.revision + 1, updatedAt := at,
               fencing := t.fencing + 1, leaseAttempt := t.leaseAttempt + 1,
               leaseOwner := Some(owner), leaseUntil := Some(at + ttl))
    && FailureShape(b.status, b.failureCode)
  }

  lemma AcquireShape(t: Task, owner: Id, at: Time, ttl: Time)
    requires Valid(t) && AcquireLease(t, owner, at, ttl).Ok?
    ensures Acquired(t, AcquireLease(t, owner, at, ttl).value, owner, at, ttl)
    ensures !Terminal(t.status) && t.updatedAt <= at && ttl > 0 && (t.leaseUntil.Some? ==> t.leaseUntil.value <= at)
  {
  }

  lemma AcquiredIsValid(t: Task, b: Task, owner: Id, at: Time, ttl: Time)
    requires Valid(t) && Acquired(t, b, owner, at, ttl) && !Terminal(t.status) && t.updatedAt <= at && ttl > 0
    ensures Valid(b) && Quiet(t, b)
  {
    assert SubmissionFacts(b);
    assert CoreFacts(b);
  }

  lemma AcquireIsQuiet(t: Task, owner: Id, at: Time, ttl: Time)
    requires Valid(t) && AcquireLease(t, owner, at, ttl).Ok?
    ensures var b := AcquireLease(t, owner, at, ttl).value;
            && Valid(b) && Quiet(t, b) && b.fencing == t.fencing + 1 && b.externalID == t.externalID
            && b.leaseUntil == Some(at + ttl) && b.leaseOwner == Some(owner)
            && (t.leaseUntil.Some? ==> t.leaseUntil.value <= at)
  {
    AcquireShape(t, owner, at, ttl);
    AcquiredIsValid(t, AcquireLease(t, owner, at, ttl).value, owner, at, ttl);
  }
}
