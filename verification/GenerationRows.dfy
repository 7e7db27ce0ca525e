/** The transactions that touch the rows of one generation task. The task, its
    quota hold and its output are unique per task, its cleanup requests are
    unique per task and scope, and its reconciliation records are appended, so
    the five tables are kept here as one group of rows per task. Every function
    returns the rows the transaction commits, or the error that rolls it back. */
module GenerationRows {
  import opened Base
  import opened GenerationTask
  import opened GenerationCleanup

  datatype Output = Output(asset: Asset, confirmedAt: Option<Time>)

  datatype Audit = Audit(
    actor: Id, expected: nat, resulting: nat, attempt: nat, external: Option<Id>, createdAt: Time)

  datatype Rows = Rows(
    task: Option<Task>, hold: Option<Reservation>, output: Option<Output>,
    cleanups: map<Scope, Cleanup>, audits: seq<Audit>)

  const NO_ROWS := Rows(None, None, None, map[], [])

  function Load(r: Rows): Result<Task, Error> {
    if r.task.None? then Err(NotFound) else if !Valid(r.task.value) then Err(InvalidState) else Ok(r.task.value)
  }

  // ------------------------------------------------------- guarded row updates

  function UpdateTask(r: Rows, t: Task, previous: nat): Result<Rows, Error> {
    if r.task.None? || r.task.value.revision != previous then Err(LeaseConflict)
    else Ok(r.(task := Some(t)))
  }

  function UpdateFenced(r: Rows, t: Task, previous: nat, token: nat): Result<Rows, Error> {
    if r.task.None? || r.task.value.revision != previous || r.task.value.fencing != token then Err(LeaseConflict)
    else Ok(r.(task := Some(t)))
  }

  function UpdateReservation(r: Rows, before: Reservation, after: Reservation): Result<Rows, Error> {
    if r.hold.None? || r.hold.value.revision != before.revision then Err(SettlementConflict)
    else Ok(r.(hold := Some(after)))
  }

  function PersistOutput(r: Rows, s: Settlement): Result<Rows, Error>
    requires s.asset.Some?
  {
    if !ValidAsset(s.task, s.asset.value) then Err(InvalidSettlement)
    else if s.reused then
      if r.output.None? || r.output.value.asset != s.asset.value then Err(SettlementConflict) else Ok(r)
    else if r.output.Some? then Err(SettlementConflict)
    else Ok(r.(output := Some(Output(s.asset.value, None))))
  }

  /** The terminal write set: hold, then output, then the fenced task update. */
  function PersistSettlement(r: Rows, previous: nat, hold: Option<Reservation>, s: Settlement): Result<Rows, Error> {
    if s.reservation.None? && hold.Some? then Err(SettlementConflict)
    else if s.reservation.Some? && (hold.None? || s.reservation.value.task != s.task.facts.id) then
      Err(SettlementConflict)
    else
      var held :- if s.reservation.Some? then UpdateReservation(r, hold.value, s.reservation.value) else Ok(r);
      var shown :- if s.asset.Some? then PersistOutput(held, s)
                   else if held.output.Some? then Err(SettlementConflict) else Ok(held);
      UpdateFenced(shown, s.task, previous, s.token)
  }

  /** A canceled task that was never submitted and is not leased. */
  predicate Unsubmitted(t: Task) {
    && t.status.Queued? && t.submission.NotStarted? && t.externalID.None? && t.cancelRequestedAt.Some?
    && t.leaseUntil.None?
  }

  /** Such a task ends at once: nothing else would ever settle it. */
  function SettleUnsubmitted(r: Rows, t: Task, previous: nat, at: Time): Result<Rows, Error> {
    var s :- FinalizeWithoutOutput(t, r.hold, Canceled, None, at);
    if s.token != t.fencing then Err(SettlementConflict) else PersistSettlement(r, previous, r.hold, s)
  }

  // ------------------------------------------------------------------- cleanup

  function OutputTarget(o: Output): Target { ObjectTarget(o.asset.id, o.asset.key, o.asset.version) }

  function TaskTarget(t: Task): Target
    requires t.externalID.Some?
  {
    ProviderTarget(t.externalID.value, Some(t.facts.provider))
  }

  /** Every object and provider target known for the task. */
  function KnownTargets(r: Rows, t: Task): seq<Target> {
    (if r.output.Some? then [OutputTarget(r.output.value)] else [])
    + (if t.externalID.Some? then [TaskTarget(t)] else [])
  }

  /** Links a pending unpublished-output request to the account deletion. */
  function AttachOrphan(r: Rows, account: Id, at: Time): Result<Rows, Error> {
    if OrphanScope !in r.cleanups || r.cleanups[OrphanScope].account == Some(account) then Ok(r)
    else
      var c := r.cleanups[OrphanScope];
      Ok(r.(cleanups := r.cleanups[OrphanScope := c.(account := Some(account), updatedAt := Max(at, c.updatedAt))]))
  }

  /** The task row a new request leaves behind: revoked, and canceled unless it
      was terminal already. */
  function Closing(t: Task, moment: Time): Result<Task, Error> {
    var revoked :- if t.revokedAt.None? then RevokeAccess(t, moment) else Ok(t);
    if !Terminal(revoked.status) && revoked.cancelRequestedAt.None? then RequestCancel(revoked, moment) else Ok(revoked)
  }

  function SaveClosing(r: Rows, t: Task, closing: Task, moment: Time): Result<Rows, Error> {
    if closing.revision == t.revision then Ok(r)
    else if Unsubmitted(closing) then SettleUnsubmitted(r, closing, t.revision, moment)
    else UpdateTask(r, closing, t.revision)
  }

  function MakeRequest(r: Rows, scope: Scope, source: Option<Id>, account: Option<Id>, at: Time)
    : Result<Cleanup, Error>
  {
    var t :- Load(r);
    var made :- NewCleanup(t, scope, KnownTargets(r, t), at);
    var request := made.(source := source, account := account);
    if ValidCleanup(request) then Ok(request) else Err(InvalidCleanup)
  }

  /** Revokes the task and records a first request of this scope. */
  function AddRequest(r: Rows, t: Task, scope: Scope, source: Option<Id>, account: Option<Id>, moment: Time)
    : Result<Rows, Error>
  {
    var closing :- Closing(t, moment);
    var settled :- SaveClosing(r, t, closing, moment);
    var request :- MakeRequest(settled, scope, source, account, moment);
    Ok(settled.(cleanups := settled.cleanups[scope := request]))
  }

  function EnsureCleanup(r: Rows, scope: Scope, source: Option<Id>, account: Option<Id>, at: Time)
    : Result<Rows, Error>
  {
    if scope in r.cleanups then
      if !ValidCleanup(r.cleanups[scope]) then Err(InvalidCleanup)
      else if scope.AccountScope? && account.Some? then AttachOrphan(r, account.value, at)
      else Ok(r)
    else
      var t :- Load(r);
      var added :- AddRequest(r, t, scope, source, account, Max(at, t.updatedAt));
      if scope.AccountScope? && account.Some? then AttachOrphan(added, account.value, Max(at, t.updatedAt))
      else Ok(added)
  }

  function AddTargets(c: Cleanup, targets: seq<Target>, at: Time): Result<Cleanup, Error>
    decreases |targets|
  {
    if targets == [] then Ok(c)
    else
      var d :- AddTarget(c, targets[0], at);
      AddTargets(d, targets[1..], at)
  }

  /** One locked request of the task; the requests are independent rows, so the
      order in which they are visited does not matter. */
  function ExtendScope(r: Rows, scope: Scope, targets: seq<Target>, at: Time): Result<Rows, Error> {
    if scope !in r.cleanups then Ok(r)
    else if !ValidCleanup(r.cleanups[scope]) then Err(InvalidCleanup)
    else
      var c :- AddTargets(r.cleanups[scope], targets, Max(at, r.cleanups[scope].updatedAt));
      Ok(r.(cleanups := r.cleanups[scope := c]))
  }

  /** The owner-requested scopes of a revoked task. */
  function ExtendRevoked(r: Rows, targets: seq<Target>, at: Time): Result<Rows, Error> {
    var r1 :- ExtendScope(r, TaskScope, targets, at);
    var r2 :- ExtendScope(r1, SourceScope, targets, at);
    ExtendScope(r2, AccountScope, targets, at)
  }

  /** Closes the gap between a cleanup request and an identity that arrives late:
      every request of the task, whatever its scope, gets the missing targets. */
  function SyncTargets(r: Rows, t: Task, at: Time): Result<Rows, Error> {
    if t.revokedAt.None? || t.externalID.None? then Ok(r)
    else
      var moment := Max(at, t.updatedAt);
      var extended :- ExtendRevoked(r, KnownTargets(r, t), moment);
      ExtendScope(extended, OrphanScope, KnownTargets(r, t), moment)
  }

  predicate Requested(r: Rows) { TaskScope in r.cleanups || SourceScope in r.cleanups || AccountScope in r.cleanups }

  function AddTargetToRevoked(r: Rows, target: Target, at: Time): Result<Rows, Error> {
    if Requested(r) then ExtendRevoked(r, [target], at)
    else
      var ensured :- EnsureCleanup(r, TaskScope, None, None, at);
      ExtendRevoked(ensured, [target], at)
  }

  function RecordOrphan(r: Rows, t: Task, target: Target, at: Time): Result<Rows, Error> {
    var c :- if OrphanScope in r.cleanups then AddTarget(r.cleanups[OrphanScope], target, at)
             else NewOrphan(t, target, at);
    Ok(r.(cleanups := r.cleanups[OrphanScope := c]))
  }

  /** Provider targets must name the stored provider identity of the task row. */
  predicate IdentityMatches(r: Rows, c: Cleanup) {
    (exists t :: t in c.targets && t.ProviderTarget?) ==>
      && r.task.Some? && r.task.value.facts.owner == c.owner && r.task.value.externalID.Some?
      && (forall t :: t in c.targets && t.ProviderTarget? ==> t == TaskTarget(r.task.value))
  }

  predicate ClaimMatches(current: Cleanup, claimed: Cleanup) {
    && current.task == claimed.task && current.scope == claimed.scope
    && current.status.InProgress? && claimed.status.InProgress?
    && current.attempts == claimed.attempts && current.updatedAt == claimed.updatedAt
  }

  predicate ReadyToClean(c: Cleanup, at: Time, staleAfter: Time) {
    if c.status.InProgress? then c.updatedAt + staleAfter <= at
    else
      && !c.status.Complete? && c.fault != Some(IdentityMismatch) && c.attempts < MAX_CLEANUP_ATTEMPTS
      && (c.nextAttemptAt.None? || c.nextAttemptAt.value <= at)
  }

  /** What claiming does to one eligible request: repair, exhaust, or begin. */
  function ClaimRequest(r: Rows, c: Cleanup, at: Time): Result<Cleanup, Error> {
    if !ValidCleanup(c) then Err(InvalidCleanup)
    else if !IdentityMatches(r, c) then RejectUnsafeTarget(c, at)
    else if !c.status.InProgress? then Begin(c, at)
    else if c.attempts >= MAX_CLEANUP_ATTEMPTS then Exhaust(c, at)
    else
      var expired :- Fail(c, at, WorkerExpired, at);
      Begin(expired, at)
  }

  // -------------------------------------------------------- worker transactions

  datatype Queue = SubmissionQueue | ObservationQueue | ResultQueue

  /** The rows a queue may hand out. */
  predicate Claimable(t: Task, queue: Queue, provider: Option<Id>, timeout: Time, at: Time) {
    && t.revokedAt.None? && (t.leaseUntil.None? || t.leaseUntil.value <= at)
    && (provider.Some? ==> t.facts.provider == provider.value)
    && (timeout > 0 ==> at < t.facts.createdAt + timeout)
    && match queue
       case SubmissionQueue =>
         && Submittable(t.status) && t.externalID.None?
         && ((t.submission.NotStarted? && (t.nextAttemptAt.None? || t.nextAttemptAt.value <= at))
             || (t.submission.InFlight? && t.leaseUntil.Some?))
       case ObservationQueue =>
         t.status.Running? && t.submission.Accepted? && t.externalID.Some?
         && (t.nextAttemptAt.None? || t.nextAttemptAt.value <= at)
       case ResultQueue =>
         t.status.Validating? && t.submission.Accepted? && t.externalID.Some?
         && (t.nextAttemptAt.None? || t.nextAttemptAt.value <= at)
  }

  /** An explicit lease for one task: any active task, or only an accepted one,
      or only an accepted and validating one. */
  datatype LeaseKind = AnyLease | ObservationLease | ResultLease

  function Eligible(t: Task, kind: LeaseKind): Result<(), Error> {
    if kind.ObservationLease? && (t.externalID.None? || !t.submission.Accepted?) then Err(ObservationUnavailable)
    else if kind.ResultLease? && (!t.status.Validating? || t.externalID.None? || !t.submission.Accepted?) then
      Err(ResultUnavailable)
    else Ok(())
  }

  datatype Decision = WasAccepted(external: Id) | WasNotAccepted

  const SUBMISSION_NOT_ACCEPTED: Id := 1
  const ONE_MINUTE: Time := 60_000_000

  /** One transaction on the rows of one task. */
  datatype TaskOp =
    | Acquire(kind: LeaseKind, owner: Id, at: Time, ttl: Time)
    | Claim(queue: Queue, from: Option<Id>, owner: Id, at: Time, ttl: Time)
    | Renew(lease: Lease, at: Time, ttl: Time)
    | Release(lease: Lease, at: Time)
    | Change(lease: Lease, mutation: Mutation, at: Time)
    | Finalize(lease: Lease, next: Status, code: Option<Id>, at: Time)
    | Expire(provider: Id, cutoff: Time, at: Time, versions: seq<Id>)
    | Reconcile(actor: Id, expected: nat, decision: Decision, at: Time)
    | Cancel(owner: Id, at: Time)
    | Confirm(owner: Id, at: Time, retention: Time)
    | RecordUnpublished(lease: Lease, target: Target, at: Time)
    | BeginCleanup(scope: Scope, at: Time)
    | ClaimCleanup(scope: Scope, at: Time, staleAfter: Time)
    | FailCleanup(claimed: Cleanup, at: Time, fault: StableError, retryAt: Time)

  function LeaseTask(r: Rows, t: Task, owner: Id, at: Time, ttl: Time): Result<Rows, Error> {
    var leased :- AcquireLease(t, owner, at, ttl);
    UpdateTask(r, leased, t.revision)
  }

  function ChangeTask(r: Rows, lease: Lease, m: Mutation, timeout: Time, at: Time): Result<Rows, Error> {
    var t :- Load(r);
    var _ :- WorkerProof(t, lease, at);
    var changed :- Mutate(t, lease, m, timeout, at);
    var saved :- UpdateTask(r, changed, t.revision);
    if m.RecordExternalID? then SyncTargets(saved, changed, at) else Ok(saved)
  }

  /** The shared skeleton of every worker settlement. */
  function Settle(r: Rows, t: Task, settlement: Result<Settlement, Error>): Result<Rows, Error> {
    var s :- settlement;
    if s.token == 0 || s.token != t.fencing then Err(SettlementConflict)
    else PersistSettlement(r, t.revision, r.hold, s)
  }

  function FinalizeTask(r: Rows, lease: Lease, next: Status, code: Option<Id>, at: Time): Result<Rows, Error> {
    var t :- Load(r);
    var _ :- WorkerProof(t, lease, at);
    Settle(r, t, FinalizeWithoutOutput(t, r.hold, next, code, at))
  }

  function PublishTask(r: Rows, lease: Lease, asset: Asset, timeout: Time, at: Time): Result<Rows, Error> {
    var t :- Load(r);
    var _ :- WorkerProof(t, lease, at);
    if !Terminal(t.status) && ProcessingExpired(t.facts.createdAt, timeout, at) then Err(TimedOut)
    else Settle(r, t, PublishOutput(t, r.hold, asset, at))
  }

  predicate DueForExpiry(t: Task, provider: Id, cutoff: Time, at: Time) {
    t.facts.provider == provider && t.facts.createdAt <= cutoff && !Terminal(t.status)
    && (t.leaseUntil.None? || t.leaseUntil.value <= at)
  }

  function AddVersions(r: Rows, t: Task, versions: seq<Id>, at: Time): Result<Rows, Error>
    decreases |versions|
  {
    if versions == [] then Ok(r)
    else
      var added :- AddTargetToRevoked(r, ObjectTarget(t.facts.id, KeyOf(t.facts), versions[0]), at);
      AddVersions(added, t, versions[1..], at)
  }

  /** Settled, revoked, and every listed object version queued for deletion. */
  function ExpireDue(r: Rows, t: Task, moment: Time, versions: seq<Id>): Result<Rows, Error> {
    var s :- FinalizeWithoutOutput(t, r.hold, Expired, None, moment);
    var settled :- PersistSettlement(r, t.revision, r.hold, s);
    var ensured :- EnsureCleanup(settled, TaskScope, None, None, moment);
    AddVersions(ensured, s.task, versions, moment)
  }

  function ExpireTask(r: Rows, provider: Id, cutoff: Time, at: Time, versions: seq<Id>): Result<Rows, Error> {
    if cutoff == 0 || at == 0 || at < cutoff then Err(InvalidInput)
    else if r.task.None? then Ok(r)
    else
      var t :- Load(r);
      if !DueForExpiry(t, provider, cutoff, at) then Ok(r) else ExpireDue(r, t, Max(at, t.updatedAt), versions)
  }

  function ReconcileTask(r: Rows, actor: Id, expected: nat, decision: Decision, at: Time): Result<Rows, Error> {
    var t :- Load(r);
    if at == 0 then Err(InvalidInput)
    else if t.revision != expected then Err(RevisionConflict)
    else if !t.submission.Unknown? || t.unknownAt.None? || t.externalID.Some? || Terminal(t.status) then
      Err(InvalidState)
    else if t.leaseUntil.Some? && at < t.leaseUntil.value then Err(LeaseHeld)
    else
      var leased :- AcquireLease(t, actor, at, ONE_MINUTE);
      var closed :- match decision
                    case WasAccepted(external) => ReconcileAccepted(r, t, leased, actor, external, at)
                    case WasNotAccepted => ReconcileRefused(r, t, leased, at);
      var last :- Load(closed);
      var external := match decision case WasAccepted(x) => Some(x) case WasNotAccepted => None;
      Ok(closed.(audits := closed.audits
                 + [Audit(actor, expected, last.revision, last.submissionAttempt, external, at)]))
  }

  function ReconcileAccepted(r: Rows, t: Task, leased: Task, actor: Id, external: Id, at: Time): Result<Rows, Error> {
    var known :- RecordExternal(leased, external, at);
    var lease := Lease(t.facts.id, actor, leased.fencing, leased.leaseAttempt, at + ONE_MINUTE);
    var freed :- ReleaseLease(known, lease, at);
    var saved :- UpdateTask(r, freed, t.revision);
    if freed.revokedAt.None? then Ok(saved)
    else
      var ensured :- if saved.cleanups == map[] then EnsureCleanup(saved, TaskScope, None, None, at) else Ok(saved);
      SyncTargets(ensured, freed, at)
  }

  function ReconcileRefused(r: Rows, t: Task, leased: Task, at: Time): Result<Rows, Error> {
    var refused :- ReconcileNotAccepted(leased, at);
    var saved :- UpdateTask(r, refused, t.revision);
    var stopped := refused.cancelRequestedAt.Some? || refused.revokedAt.Some?;
    var s :- FinalizeWithoutOutput(refused, r.hold, if stopped then Canceled else Failed,
                                   if stopped then None else Some(SUBMISSION_NOT_ACCEPTED), at);
    PersistSettlement(saved, refused.revision, r.hold, s)
  }

  /** The update of a canceled but unsettled task does not write next_attempt_at. */
  function CancelTask(r: Rows, owner: Id, at: Time): Result<Rows, Error> {
    var t :- Load(r);
    if t.facts.owner != owner then Err(NotFound)
    else
      var canceling :- RequestCancel(t, at);
      if canceling.revision == t.revision then Ok(r)
      else if Unsubmitted(canceling) then SettleUnsubmitted(r, canceling, t.revision, at)
      else UpdateTask(r, canceling.(nextAttemptAt := t.nextAttemptAt), t.revision)
  }

  predicate OutputExpired(publishedAt: Time, retention: Time, at: Time) {
    retention > 0 && publishedAt + retention <= at
  }

  function ConfirmImage(r: Rows, owner: Id, at: Time, retention: Time): Result<Rows, Error> {
    var t :- Load(r);
    if at == 0 then Err(InvalidInput)
    else if t.facts.owner != owner then Err(NotFound)
    else if !t.facts.purpose.Image? || !t.status.Succeeded? || t.revokedAt.Some? || t.result.None? then
      Err(NotConfirmable)
    else if r.output.None? || Some(r.output.value.asset.id) != t.result || r.output.value.asset.owner != owner
            || !ValidAsset(t, r.output.value.asset) then Err(Unavailable)
    else
      var o := r.output.value;
      if OutputExpired(o.asset.publishedAt, retention, at) then Err(NotConfirmable)
      else if o.confirmedAt.Some? then Ok(r)
      else if at < o.asset.publishedAt then Err(NotConfirmable)
      else Ok(r.(output := Some(o.(confirmedAt := Some(at)))))
  }

  function RecordUnpublishedOutput(r: Rows, lease: Lease, target: Target, at: Time): Result<Rows, Error> {
    if at == 0 then Err(Unavailable)
    else if !target.ObjectTarget? then Err(InvalidCleanup)
    else
      var t :- Load(r);
      var _ :- WorkerProof(t, lease, at);
      if target.key != KeyOf(t.facts) then Err(InvalidCleanup)
      else if r.output.Some? && r.output.value.asset.key == target.key
        && r.output.value.asset.version == target.version then
        Ok(r)
      else if t.revokedAt.None? then RecordOrphan(r, t, target, Max(at, t.updatedAt))
      else AddTargetToRevoked(r, target, Max(at, t.updatedAt))
  }

  function SaveCleanup(r: Rows, scope: Scope, c: Result<Cleanup, Error>): Result<Rows, Error> {
    var saved :- c;
    Ok(r.(cleanups := r.cleanups[scope := saved]))
  }

  function BeginTaskCleanup(r: Rows, scope: Scope, at: Time): Result<Rows, Error> {
    if scope !in r.cleanups then Err(NotFound)
    else if !IdentityMatches(r, r.cleanups[scope]) then Err(InvalidCleanup)
    else SaveCleanup(r, scope, Begin(r.cleanups[scope], at))
  }

  function ClaimTaskCleanup(r: Rows, scope: Scope, at: Time, staleAfter: Time): Result<Rows, Error> {
    if at == 0 || staleAfter == 0 then Err(Unavailable)
    else if scope !in r.cleanups || !ReadyToClean(r.cleanups[scope], at, staleAfter) then Err(NotFound)
    else SaveCleanup(r, scope, ClaimRequest(r, r.cleanups[scope], at))
  }

  function FailTaskCleanup(r: Rows, claimed: Cleanup, at: Time, fault: StableError, retryAt: Time)
    : Result<Rows, Error>
  {
    if !ValidCleanup(claimed) then Err(InvalidCleanup)
    else if claimed.scope !in r.cleanups then Err(NotFound)
    else if !ClaimMatches(r.cleanups[claimed.scope], claimed) then Err(CleanupClaim)
    else SaveCleanup(r, claimed.scope, Fail(r.cleanups[claimed.scope], at, fault, retryAt))
  }

  /** Records a finished cleanup; unless it was for an unpublished version, the
      output row goes in the same transaction. */
  function CompleteTaskCleanup(r: Rows, claimed: Cleanup, at: Time): Result<Rows, Error> {
    if !ValidCleanup(claimed) then Err(InvalidCleanup)
    else if claimed.scope !in r.cleanups then Err(NotFound)
    else if !ClaimMatches(r.cleanups[claimed.scope], claimed) then Err(CleanupClaim)
    else
      var saved :- SaveCleanup(r, claimed.scope, Finish(r.cleanups[claimed.scope], at));
      Ok(if claimed.scope.OrphanScope? then saved else saved.(output := None))
  }

  function OnTask(r: Rows, op: TaskOp, timeout: Time): Result<Rows, Error> {
    match op
    case Acquire(kind, owner, at, ttl) =>
      var t :- Load(r);
      var _ :- Eligible(t, kind);
      if ProcessingExpired(t.facts.createdAt, timeout, at) then Err(TimedOut) else LeaseTask(r, t, owner, at, ttl)
    case Claim(queue, from, owner, at, ttl) =>
      var t :- Load(r);
      if at == 0 || ttl == 0 then Err(InvalidLease)
      else if !Claimable(t, queue, from, timeout, at) then Err(NotFound)
      else LeaseTask(r, t, owner, at, ttl)
    case Renew(lease, at, ttl) =>
      var t :- Load(r);
      if ProcessingExpired(t.facts.createdAt, timeout, at) then Err(TimedOut)
      else
        var renewed :- RenewLease(t, lease, at, ttl);
        UpdateTask(r, renewed, t.revision)
    case Release(lease, at) =>
      var t :- Load(r);
      var released :- ReleaseLease(t, lease, at);
      UpdateTask(r, released, t.revision)
    case Change(lease, m, at) => ChangeTask(r, lease, m, timeout, at)
    case Finalize(lease, next, code, at) => FinalizeTask(r, lease, next, code, at)
    case Expire(provider, cutoff, at, versions) => ExpireTask(r, provider, cutoff, at, versions)
    case Reconcile(actor, expected, decision, at) => ReconcileTask(r, actor, expected, decision, at)
    case Cancel(owner, at) => CancelTask(r, owner, at)
    case Confirm(owner, at, retention) => ConfirmImage(r, owner, at, retention)
    case RecordUnpublished(lease, target, at) => RecordUnpublishedOutput(r, lease, target, at)
    case BeginCleanup(scope, at) => BeginTaskCleanup(r, scope, at)
    case ClaimCleanup(scope, at, staleAfter) => ClaimTaskCleanup(r, scope, at, staleAfter)
    case FailCleanup(claimed, at, fault, retryAt) => FailTaskCleanup(r, claimed, at, fault, retryAt)
  }
}
