/** A provider submission costs money, and its outcome can be lost. No task is
    submitted a second time until something proved that the first submission was
    not accepted, whatever happens in between. */
module GenerationSubmission {
  import opened Base
  import opened GenerationTask
  import opened GenerationCleanup
  import opened GenerationRows
  import opened GenerationRowsInvariant
  import opened GenerationRowsProofs
  import opened Media
  import opened GenerationStore
  import opened GenerationStoreInvariant
  import opened GenerationStoreProofs
  import opened GenerationStoreErasure
  import opened GenerationStoreSteps
  import opened GenerationRuns
  import opened GenerationQuota

  /** The submission of the task, if the task is still there, is what it was. */
  predicate Same(a: Rows, b: Rows) {
    b.task.Some? ==>
      && a.task.Some? && b.task.value.submission == a.task.value.submission
      && b.task.value.submissionAttempt == a.task.value.submissionAttempt
  }

  ghost predicate AllSame(a: map<Id, Rows>, b: map<Id, Rows>) {
    a.Keys <= b.Keys && forall t :: t in a ==> Same(a[t], b[t])
  }

  // ---------------------------------------------------- what leaves submissions alone

  lemma ClosingSame(t: Task, moment: Time)
    requires Closing(t, moment).Ok?
    ensures var c := Closing(t, moment).value;
            c.submission == t.submission && c.submissionAttempt == t.submissionAttempt
  {
  }

  lemma FinalizedSame(r: Rows, t: Task, hold: Option<Reservation>, next: Status, code: Option<Id>, previous: nat,
                      at: Time)
    requires r.task.Some? && t.submission == r.task.value.submission
             && t.submissionAttempt == r.task.value.submissionAttempt
    requires FinalizeWithoutOutput(t, hold, next, code, at).Ok?
    requires PersistSettlement(r, previous, hold, FinalizeWithoutOutput(t, hold, next, code, at).value).Ok?
    ensures Same(r, PersistSettlement(r, previous, hold, FinalizeWithoutOutput(t, hold, next, code, at).value).value)
  {
  }

  lemma SaveClosingSame(r: Rows, t: Task, closing: Task, moment: Time)
    requires r.task == Some(t) && closing.submission == t.submission && closing.submissionAttempt == t.submissionAttempt
    requires SaveClosing(r, t, closing, moment).Ok?
    ensures Same(r, SaveClosing(r, t, closing, moment).value)
  {
    if closing.revision != t.revision && Unsubmitted(closing) {
      FinalizedSame(r, closing, r.hold, Canceled, None, t.revision, moment);
    }
  }

  lemma EnsureSame(r: Rows, scope: Scope, source: Option<Id>, account: Option<Id>, at: Time)
    requires EnsureCleanup(r, scope, source, account, at).Ok?
    ensures Same(r, EnsureCleanup(r, scope, source, account, at).value)
  {
    if scope !in r.cleanups {
      var t := r.task.value;
      var moment := Max(at, t.updatedAt);
      ClosingSame(t, moment);
      SaveClosingSame(r, t, Closing(t, moment).value, moment);
    }
  }

  lemma {:induction false} EnsureEachSame(rows: map<Id, Rows>, ids: seq<Id>, scope: Scope, account: Option<Id>,
                                          at: Time)
    requires EnsureEach(rows, ids, scope, account, at).Ok?
    ensures AllSame(rows, EnsureEach(rows, ids, scope, account, at).value)
    decreases |ids|
  {
    if ids != [] {
      EnsureSame(rows[ids[0]], scope, None, account, at);
      EnsureEachSame(rows[ids[0] := EnsureCleanup(rows[ids[0]], scope, None, account, at).value], ids[1..], scope,
                     account, at);
    }
  }

  lemma DependentsSame(rows: map<Id, Rows>, t: Task, at: Time)
    requires EnsureDependents(rows, t, at).Ok?
    ensures AllSame(rows, EnsureDependents(rows, t, at).value)
  {
    if t.facts.purpose.Image? && t.result.Some? {
      EnsureEachSame(rows, Ascending(ModelsOf(rows, t.facts.owner, t.result.value)), TaskScope, None, at);
    }
  }

  lemma AllSameTransitive(a: map<Id, Rows>, b: map<Id, Rows>, c: map<Id, Rows>)
    requires AllSame(a, b) && AllSame(b, c)
    ensures AllSame(a, c)
  {
    forall t | t in a ensures Same(a[t], c[t]) { assert Same(a[t], b[t]); }
  }

  lemma {:induction false} EnsureSourcesSame(rows: map<Id, Rows>, ids: seq<Id>, media: set<Id>, at: Time)
    requires EnsureSources(rows, ids, media, at).Ok?
    ensures AllSame(rows, EnsureSources(rows, ids, media, at).value)
    decreases |ids|
  {
    if ids != [] {
      var id := ids[0];
      var t := Load(rows[id]).value;
      var source := FirstReference(t.facts.references, media);
      var first := rows[id := EnsureCleanup(rows[id], SourceScope, source, None, at).value];
      var closed := EnsureDependents(first, t, at).value;
      EnsureSame(rows[id], SourceScope, source, None, at);
      assert AllSame(rows, first);
      DependentsSame(first, t, at);
      EnsureSourcesSame(closed, ids[1..], media, at);
      AllSameTransitive(rows, first, closed);
      AllSameTransitive(rows, closed, EnsureSources(rows, ids, media, at).value);
    }
  }

  lemma AddTargetSame(r: Rows, target: Target, at: Time)
    requires AddTargetToRevoked(r, target, at).Ok?
    ensures Same(r, AddTargetToRevoked(r, target, at).value)
  {
    if Requested(r) {
      ExtendKeepsTask(r, [target], at);
    } else {
      EnsureSame(r, TaskScope, None, None, at);
      ExtendKeepsTask(EnsureCleanup(r, TaskScope, None, None, at).value, [target], at);
    }
  }

  lemma ExtendKeepsTask(r: Rows, targets: seq<Target>, at: Time)
    requires ExtendRevoked(r, targets, at).Ok?
    ensures ExtendRevoked(r, targets, at).value.task == r.task
  {
  }

  lemma {:induction false} AddVersionsSame(r: Rows, t: Task, versions: seq<Id>, at: Time)
    requires AddVersions(r, t, versions, at).Ok?
    ensures Same(r, AddVersions(r, t, versions, at).value)
    decreases |versions|
  {
    if versions != [] {
      var target := ObjectTarget(t.facts.id, KeyOf(t.facts), versions[0]);
      AddTargetSame(r, target, at);
      AddVersionsSame(AddTargetToRevoked(r, target, at).value, t, versions[1..], at);
    }
  }

  lemma ExpireSame(r: Rows, t: Task, moment: Time, versions: seq<Id>)
    requires r.task == Some(t) && ExpireDue(r, t, moment, versions).Ok?
    ensures Same(r, ExpireDue(r, t, moment, versions).value)
  {
    FinalizedSame(r, t, r.hold, Expired, None, t.revision, moment);
    var s := FinalizeWithoutOutput(t, r.hold, Expired, None, moment).value;
    var settled := PersistSettlement(r, t.revision, r.hold, s).value;
    EnsureSame(settled, TaskScope, None, None, moment);
    AddVersionsSame(EnsureCleanup(settled, TaskScope, None, None, moment).value, s.task, versions, moment);
  }

  lemma FinalizeSame(r: Rows, lease: Lease, next: Status, code: Option<Id>, at: Time)
    requires FinalizeTask(r, lease, next, code, at).Ok?
    ensures Same(r, FinalizeTask(r, lease, next, code, at).value)
  {
    FinalizedSame(r, r.task.value, r.hold, next, code, r.task.value.revision, at);
  }

  lemma CancelSame(r: Rows, owner: Id, at: Time)
    requires CancelTask(r, owner, at).Ok?
    ensures Same(r, CancelTask(r, owner, at).value)
  {
    var t := r.task.value;
    var canceling := RequestCancel(t, at).value;
    if canceling.revision != t.revision && Unsubmitted(canceling) {
      FinalizedSame(r, canceling, r.hold, Canceled, None, t.revision, at);
    }
  }

  lemma LeaseSame(r: Rows, op: TaskOp, timeout: Time)
    requires (op.Acquire? || op.Claim? || op.Renew? || op.Release?) && OnTask(r, op, timeout).Ok?
    ensures Same(r, OnTask(r, op, timeout).value)
  {
  }

  lemma CleanupSame(r: Rows, op: TaskOp, timeout: Time)
    requires (op.BeginCleanup? || op.ClaimCleanup? || op.FailCleanup? || op.Confirm?) && OnTask(r, op, timeout).Ok?
    ensures Same(r, OnTask(r, op, timeout).value)
  {
  }

  lemma RecordedSame(r: Rows, lease: Lease, target: Target, at: Time)
    requires RecordUnpublishedOutput(r, lease, target, at).Ok?
    ensures Same(r, RecordUnpublishedOutput(r, lease, target, at).value)
  {
    var t := r.task.value;
    if t.revokedAt.Some? && AddTargetToRevoked(r, target, Max(at, t.updatedAt)).Ok? {
      AddTargetSame(r, target, Max(at, t.updatedAt));
    }
  }

  /** Only changes under a lease and reconciliations touch the submission. */
  lemma OtherWorkSame(r: Rows, op: TaskOp, timeout: Time)
    requires !op.Change? && !op.Reconcile? && OnTask(r, op, timeout).Ok?
    ensures Same(r, OnTask(r, op, timeout).value)
  {
    match op
    case Finalize(lease, next, code, at) => FinalizeSame(r, lease, next, code, at);
    case Expire(provider, cutoff, at, versions) =>
      if r.task.Some? && DueForExpiry(r.task.value, provider, cutoff, at) {
        ExpireSame(r, r.task.value, Max(at, r.task.value.updatedAt), versions);
      }
    case Cancel(owner, at) => CancelSame(r, owner, at);
    case RecordUnpublished(lease, target, at) => RecordedSame(r, lease, target, at);
    case BeginCleanup(_, _) => CleanupSame(r, op, timeout);
    case ClaimCleanup(_, _, _) => CleanupSame(r, op, timeout);
    case FailCleanup(_, _, _, _) => CleanupSame(r, op, timeout);
    case Confirm(_, _, _) => CleanupSame(r, op, timeout);
    case _ => LeaseSame(r, op, timeout);
  }

  // ------------------------------------------------------------ what may change them

  /** A submission that has been started stays started, in the same attempt; an
      accepted one stays accepted. */
  predicate Held(a: Task, b: Task) {
    && b.submissionAttempt == a.submissionAttempt && !b.submission.NotStarted?
    && (a.submission.Accepted? ==> b.submission.Accepted?)
  }

  predicate Started(r: Rows) { r.task.Some? && !r.task.value.submission.NotStarted? }

  predicate HeldRows(a: Rows, b: Rows) { Started(a) && b.task.Some? ==> Held(a.task.value, b.task.value) }

  /** Raising the attempt counter is what begins a submission. */
  predicate Raises(a: Rows, b: Rows) {
    a.task.Some? && b.task.Some? && b.task.value.submissionAttempt > a.task.value.submissionAttempt
  }

  /** A worker's or an operator's finding that the provider did not accept. */
  predicate Evidence(op: Op, id: Id) {
    op.Work? && op.task == id
    && ((op.taskOp.Change? && op.taskOp.mutation.NotAccepted?)
        || (op.taskOp.Reconcile? && op.taskOp.decision.WasNotAccepted?))
  }

  /** The outcome was unknown, and the task may be submitted again. */
  predicate Cleared(a: Rows, b: Rows) {
    a.task.Some? && b.task.Some? && a.task.value.submission.Unknown? && b.task.value.submission.NotStarted?
  }

  /** Every change under a lease: a started submission is held, unless the change is
      the finding itself and the outcome was unknown; and only an unstarted one may
      begin. */
  lemma MutateHolds(t: Task, lease: Lease, m: Mutation, timeout: Time, at: Time)
    requires Valid(t) && Mutate(t, lease, m, timeout, at).Ok?
    ensures var b := Mutate(t, lease, m, timeout, at).value;
            && (!t.submission.NotStarted? && !m.NotAccepted? ==> Held(t, b))
            && (m.NotAccepted? ==> t.submission.Unknown? && b.submission.NotStarted?)
            && (b.submissionAttempt > t.submissionAttempt ==> t.submission.NotStarted? && !b.submission.NotStarted?)
            && (b.submissionAttempt > t.submissionAttempt && m.BeginSubmission? ==>
                  t.cancelRequestedAt.None? && t.revokedAt.None? && !ProcessingExpired(t.facts.createdAt, timeout, at))
            && (b.submissionAttempt > t.submissionAttempt ==> m.BeginSubmission? || m.RecordExternalID?)
  {
  }

  lemma ChangeShape(r: Rows, lease: Lease, m: Mutation, timeout: Time, at: Time)
    requires ChangeTask(r, lease, m, timeout, at).Ok?
    ensures r.task.Some? && Valid(r.task.value) && Mutate(r.task.value, lease, m, timeout, at).Ok?
    ensures ChangeTask(r, lease, m, timeout, at).value.task == Some(Mutate(r.task.value, lease, m, timeout, at).value)
  {
  }

  lemma AcceptedTask(r: Rows, t: Task, leased: Task, actor: Id, external: Id, at: Time)
    requires r.task.Some? && (r.cleanups != map[] || leased.revokedAt.None?)
    requires ReconcileAccepted(r, t, leased, actor, external, at).Ok?
    ensures RecordExternal(leased, external, at).Ok?
    ensures var b, known := ReconcileAccepted(r, t, leased, actor, external, at).value,
            RecordExternal(leased, external, at).value;
            && b.task.Some? && b.task.value.submission == known.submission
            && b.task.value.submissionAttempt == known.submissionAttempt
  {
    var known := RecordExternal(leased, external, at).value;
    var lease := Lease(t.facts.id, actor, leased.fencing, leased.leaseAttempt, at + ONE_MINUTE);
    FreedSame(leased, external, lease, at);
    var freed := ReleaseLease(known, lease, at).value;
    if freed.revokedAt.Some? { SyncedTask(r.(task := Some(freed)), freed, at); }
  }

  lemma FreedSame(leased: Task, external: Id, lease: Lease, at: Time)
    requires RecordExternal(leased, external, at).Ok?
    requires ReleaseLease(RecordExternal(leased, external, at).value, lease, at).Ok?
    ensures var known := RecordExternal(leased, external, at).value;
            var freed := ReleaseLease(known, lease, at).value;
            && freed.submission == known.submission && freed.submissionAttempt == known.submissionAttempt
            && freed.revokedAt == leased.revokedAt
  {
  }

  lemma SyncedTask(r: Rows, t: Task, at: Time)
    requires SyncTargets(r, t, at).Ok?
    ensures SyncTargets(r, t, at).value.task == r.task
  {
  }

  lemma ReconciledHolds(r: Rows, actor: Id, expected: nat, external: Id, at: Time)
    requires ReconcileTask(r, actor, expected, WasAccepted(external), at).Ok?
    requires r.cleanups != map[] || r.task.value.revokedAt.None?
    ensures Started(r) && HeldRows(r, ReconcileTask(r, actor, expected, WasAccepted(external), at).value)
  {
    var t := r.task.value;
    AcquireShape(t, actor, at, ONE_MINUTE);
    var leased := AcquireLease(t, actor, at, ONE_MINUTE).value;
    AcceptedTask(r, t, leased, actor, external, at);
  }

  /** Any transaction on the task. */
  lemma WorkHolds(id: Id, r: Rows, op: TaskOp, timeout: Time)
    requires RowsOk(id, r) && OnTask(r, op, timeout).Ok?
    ensures var b := OnTask(r, op, timeout).value;
            && (b.task.Some? ==> r.task.Some?) && (Raises(r, b) ==> !Started(r) && Started(b))
            && (HeldRows(r, b) || (Evidence(Work(id, op), id) && Cleared(r, b)))
  {
    match op
    case Change(lease, m, at) =>
      ChangeShape(r, lease, m, timeout, at);
      MutateHolds(r.task.value, lease, m, timeout, at);
    case Reconcile(actor, expected, decision, at) =>
      ReconciliationDecides(id, r, actor, expected, decision, at);
      ReconciliationHolds(id, r, actor, expected, decision, at);
    case _ => OtherWorkSame(r, op, timeout);
  }

  lemma ReconciliationHolds(id: Id, r: Rows, actor: Id, expected: nat, decision: Decision, at: Time)
    requires RowsOk(id, r) && ReconcileTask(r, actor, expected, decision, at).Ok?
    ensures var b := ReconcileTask(r, actor, expected, decision, at).value;
            && !Raises(r, b) && r.task.value.submission.Unknown?
            && (if decision.WasAccepted? then HeldRows(r, b) else Cleared(r, b))
  {
    if r.task.value.revokedAt.Some? { assert Requested(r); }
    match decision
    case WasAccepted(external) => ReconciledHolds(r, actor, expected, external, at);
    case WasNotAccepted => RefusedAttempt(r, actor, expected, at);
  }

  lemma RefusedAttempt(r: Rows, actor: Id, expected: nat, at: Time)
    requires ReconcileTask(r, actor, expected, WasNotAccepted, at).Ok?
    ensures !Raises(r, ReconcileTask(r, actor, expected, WasNotAccepted, at).value)
    ensures Cleared(r, ReconcileTask(r, actor, expected, WasNotAccepted, at).value)
  {
    var t := r.task.value;
    AcquireShape(t, actor, at, ONE_MINUTE);
    RefusedTask(r, t, AcquireLease(t, actor, at, ONE_MINUTE).value, at);
  }

  lemma RefusedTask(r: Rows, t: Task, leased: Task, at: Time)
    requires r.task.Some? && ReconcileRefused(r, t, leased, at).Ok?
    ensures var b := ReconcileRefused(r, t, leased, at).value;
            && b.task.Some? && b.task.value.submissionAttempt == leased.submissionAttempt
            && b.task.value.submission.NotStarted?
  {
    var refused := ReconcileNotAccepted(leased, at).value;
    var code := if Stopped(refused) then None else Some(SUBMISSION_NOT_ACCEPTED);
    FinalizedSame(r.(task := Some(refused)), refused, r.hold, if Stopped(refused) then Canceled else Failed, code,
                  refused.revision, at);
  }

  // ------------------------------------------------------------- every transaction

  /** What one step does to the submission of task `id`, which may be erased by it. */
  ghost predicate StepsSubmission(a: Db, b: Db, id: Id, finding: bool) {
    id in a.rows ==>
      && id in b.rows && (b.rows[id].task.Some? ==> a.rows[id].task.Some?)
      && (Raises(a.rows[id], b.rows[id]) ==> !Started(a.rows[id]) && Started(b.rows[id]))
      && (HeldRows(a.rows[id], b.rows[id]) || (finding && Cleared(a.rows[id], b.rows[id])))
  }

  lemma SameSteps(a: Db, b: Db, id: Id, finding: bool)
    requires AllSame(a.rows, b.rows)
    ensures StepsSubmission(a, b, id, finding)
  {
    if id in a.rows { assert Same(a.rows[id], b.rows[id]); }
  }

  lemma SameTable(rows: map<Id, Rows>)
    ensures AllSame(rows, rows)
  {
  }

  lemma ErasedSame(a: map<Id, Rows>, db: Db, user: Id, at: Time)
    requires AllSame(a, db.rows) && FinalizeIfReady(db, user, at).Ok?
    ensures AllSame(a, FinalizeIfReady(db, user, at).value.rows)
  {
    forall t | t in a
      ensures t in FinalizeIfReady(db, user, at).value.rows && Same(a[t], FinalizeIfReady(db, user, at).value.rows[t])
    {
      assert Same(a[t], db.rows[t]);
    }
  }

  lemma RemovalSame(db: Db, event: Id, media: Id, at: Time)
    requires CompleteDeletion(db, event, media, at).Ok?
    ensures AllSame(db.rows, CompleteDeletion(db, event, media, at).value.rows)
  {
    SameTable(db.rows);
    if (event, MediaDelete) !in db.files.receipts {
      var files := FinishDeletion(db.files, event, media, at).value;
      ErasedSame(db.rows, db.(files := files), files.media[media].owner, at);
    }
  }

  lemma CompletedSame(db: Db, claimed: Cleanup, at: Time)
    requires CompleteCleanup(db, claimed, at).Ok?
    ensures AllSame(db.rows, CompleteCleanup(db, claimed, at).value.rows)
  {
    var r := CompleteTaskCleanup(db.rows[claimed.task], claimed, at).value;
    var b := db.(rows := db.rows[claimed.task := r]);
    assert AllSame(db.rows, b.rows);
    if r.cleanups[claimed.scope].account.Some? { ErasedSame(db.rows, b, r.cleanups[claimed.scope].owner, at); }
  }

  lemma LeavingSame(db: Db, user: Id, request: Id, at: Time)
    requires BeginAccountDeletion(db, user, request, at).Ok?
    ensures AllSame(db.rows, BeginAccountDeletion(db, user, request, at).value.rows)
  {
    CloseShape(db, user, request, at);
    EnsureEachSame(db.rows, Ascending(TasksOf(db.rows, user)), AccountScope, Some(request), at);
    var b := CloseAccount(db, user, request, at).value;
    if Remaining(db.files, user) == {} { ErasedSame(db.rows, b, user, at); }
  }

  lemma SourceSame(db: Db, owner: Id, media: set<Id>, at: Time)
    requires RequestSourceCleanup(db, owner, media, at).Ok?
    ensures AllSame(db.rows, RequestSourceCleanup(db, owner, media, at).value.rows)
  {
    EnsureSourcesSame(db.rows, Ascending(SourceTasks(db.rows, owner, media)), media, at);
  }

  lemma TaskSame(db: Db, owner: Id, task: Id, at: Time)
    requires RequestTaskCleanup(db, owner, task, at).Ok?
    ensures AllSame(db.rows, RequestTaskCleanup(db, owner, task, at).value.rows)
  {
    var t := Load(db.rows[task]).value;
    var first := db.rows[task := EnsureCleanup(db.rows[task], TaskScope, None, None, at).value];
    EnsureSame(db.rows[task], TaskScope, None, None, at);
    assert AllSame(db.rows, first);
    DependentsSame(first, t, at);
    AllSameTransitive(db.rows, first, EnsureDependents(first, t, at).value);
  }

  lemma WithdrawSame(db: Db, owner: Id, consent: Id, at: Time)
    requires WithdrawConsent(db, owner, consent, at).Ok?
    ensures AllSame(db.rows, WithdrawConsent(db, owner, consent, at).value.rows)
  {
    SameTable(db.rows);
    var c := db.files.consents[consent];
    var withdrawn := if c.withdrawnAt.None? then c.(withdrawnAt := Some(at)) else c;
    var saved := db.(files := db.files.(consents := db.files.consents[consent := withdrawn]));
    var media := GivenUnder(db.files, owner, consent, c.purpose);
    if c.purpose.GenerationInput? && media != {} { SourceSame(saved, owner, media, at); }
  }

  lemma DeleteSame(db: Db, owner: Id, media: Id, blocked: bool, at: Time)
    requires DeleteMedia(db, owner, media, blocked, at).Ok?
    ensures AllSame(db.rows, DeleteMedia(db, owner, media, blocked, at).value.rows)
  {
    SameTable(db.rows);
    if media !in db.files.deletions { SourceSame(db, owner, {media}, at); }
  }

  lemma PublishSame(db: Db, lease: Lease, asset: Asset, timeout: Time, at: Time)
    requires PublishOn(db, lease, asset, timeout, at).Ok?
    ensures AllSame(db.rows, PublishOn(db, lease, asset, timeout, at).value.rows)
  {
    PublishOnShape(db, lease, asset, timeout, at);
    PublishedSame(db.rows[lease.task], lease, asset, timeout, at);
  }

  lemma PublishedSame(r: Rows, lease: Lease, asset: Asset, timeout: Time, at: Time)
    requires PublishTask(r, lease, asset, timeout, at).Ok?
    ensures Same(r, PublishTask(r, lease, asset, timeout, at).value)
  {
  }

  lemma AcceptedSame(db: Db, f: Facts, p: Policy)
    requires Core(db) && Accept(db, f, p).Ok?
    ensures AllSame(db.rows, Accept(db, f, p).value.rows)
  {
    AcceptShape(db, f, p);
    SameTable(db.rows);
  }

  lemma WorkSteps(db: Db, task: Id, op: TaskOp, timeout: Time, id: Id)
    requires Core(db) && WorkOn(db, task, op, timeout).Ok?
    ensures StepsSubmission(db, WorkOn(db, task, op, timeout).value, id, Evidence(Work(task, op), id))
  {
    WorkShape(db, task, op, timeout);
    var b := WorkOn(db, task, op, timeout).value;
    if task in db.rows && id == task {
      WorkedSteps(db, b, op, timeout, id);
    } else {
      assert id in db.rows ==> b.rows[id] == db.rows[id];
      UntouchedSteps(db, b, id, Evidence(Work(task, op), id));
    }
  }

  lemma WorkedSteps(db: Db, b: Db, op: TaskOp, timeout: Time, id: Id)
    requires id in db.rows && RowsOk(id, db.rows[id]) && id in b.rows
    requires OnTask(db.rows[id], op, timeout) == Ok(b.rows[id])
    ensures StepsSubmission(db, b, id, Evidence(Work(id, op), id))
  {
    WorkHolds(id, db.rows[id], op, timeout);
    OneSteps(db, b, id, Evidence(Work(id, op), id));
  }

  lemma OneSteps(a: Db, b: Db, id: Id, finding: bool)
    requires id in a.rows && id in b.rows && (b.rows[id].task.Some? ==> a.rows[id].task.Some?)
    requires Raises(a.rows[id], b.rows[id]) ==> !Started(a.rows[id]) && Started(b.rows[id])
    requires HeldRows(a.rows[id], b.rows[id]) || (finding && Cleared(a.rows[id], b.rows[id]))
    ensures StepsSubmission(a, b, id, finding)
  {
  }

  lemma UntouchedSteps(a: Db, b: Db, id: Id, finding: bool)
    requires id in a.rows ==> id in b.rows && b.rows[id] == a.rows[id]
    ensures StepsSubmission(a, b, id, finding)
  {
  }

  lemma WorkShape(db: Db, task: Id, op: TaskOp, timeout: Time)
    requires WorkOn(db, task, op, timeout).Ok?
    ensures var b := WorkOn(db, task, op, timeout).value;
            if task in db.rows then OnTask(db.rows[task], op, timeout).Ok?
                                    && b == db.(rows := db.rows[task := OnTask(db.rows[task], op, timeout).value])
            else b == db
  {
  }

  lemma RevocationSame(db: Db, op: Op, timeout: Time, b: Db)
    requires op.EndConsent? || op.Remove? || op.RevokeTask? || op.RevokeSource?
    requires Apply(db, op, timeout) == Ok(b)
    ensures AllSame(db.rows, b.rows)
  {
    match op
    case EndConsent(user, consent, at) => WithdrawSame(db, user, consent, at);
    case Remove(user, media, blocked, at) => DeleteSame(db, user, media, blocked, at);
    case RevokeTask(user, task, at) => TaskSame(db, user, task, at);
    case RevokeSource(user, media, at) => SourceSame(db, user, {media}, at);
  }

  lemma FinisherSame(db: Db, op: Op, timeout: Time, b: Db)
    requires op.FinishRemoval? || op.FinishCleanup? || op.LeaveAccount?
    requires Apply(db, op, timeout) == Ok(b)
    ensures AllSame(db.rows, b.rows)
  {
    match op
    case FinishRemoval(event, media, at) => RemovalSame(db, event, media, at);
    case FinishCleanup(claimed, at) => CompletedSame(db, claimed, at);
    case LeaveAccount(user, request, at) => LeavingSame(db, user, request, at);
  }

  lemma OtherOpSame(db: Db, op: Op, timeout: Time, b: Db)
    requires Core(db) && !op.Work? && Apply(db, op, timeout) == Ok(b)
    ensures AllSame(db.rows, b.rows)
  {
    if UserOp(op) {
      UserOpShape(db, op, timeout, b);
      SameTable(db.rows);
    } else if op.FinishRemoval? || op.FinishCleanup? || op.LeaveAccount? {
      FinisherSame(db, op, timeout, b);
    } else if op.EndConsent? || op.Remove? || op.RevokeTask? || op.RevokeSource? {
      RevocationSame(db, op, timeout, b);
    } else if op.Request? {
      AcceptedSame(db, op.facts, op.admission);
    } else {
      PublishSame(db, op.lease, op.asset, timeout, op.at);
    }
  }

  lemma StepHolds(db: Db, op: Op, timeout: Time, id: Id)
    requires Core(db)
    ensures StepsSubmission(db, Step(db, op, timeout), id, Evidence(op, id))
  {
    if Apply(db, op, timeout).Err? {
      SameTable(db.rows);
      SameSteps(db, db, id, Evidence(op, id));
    } else if op.Work? {
      WorkSteps(db, op.task, op.taskOp, timeout, id);
    } else {
      OtherOpSame(db, op, timeout, Apply(db, op, timeout).value);
      SameSteps(db, Apply(db, op, timeout).value, id, Evidence(op, id));
    }
  }

  // -------------------------------------------------------------------- whole runs

  /** The step `op` takes effect in state `db` as a finding that the submission of
      task `id`, whose outcome was unknown, was not accepted. */
  predicate Finds(db: Db, op: Op, timeout: Time, id: Id) {
    && Evidence(op, id) && id in db.rows && id in Step(db, op, timeout).rows
    && Cleared(db.rows[id], Step(db, op, timeout).rows[id])
  }

  ghost predicate NeverFound(db: Db, ops: seq<Op>, timeout: Time, id: Id)
    decreases |ops|
  {
    ops == [] || (!Finds(db, ops[0], timeout, id) && NeverFound(Step(db, ops[0], timeout), ops[1..], timeout, id))
  }

  lemma {:induction false} FirstFinding(db: Db, ops: seq<Op>, timeout: Time, id: Id) returns (k: nat)
    requires !NeverFound(db, ops, timeout, id)
    ensures k < |ops| && Finds(Run(db, ops[..k], timeout), ops[k], timeout, id)
    decreases |ops|
  {
    if Finds(db, ops[0], timeout, id) {
      k := 0;
      assert ops[..0] == [];
    } else {
      var j := FirstFinding(Step(db, ops[0], timeout), ops[1..], timeout, id);
      k := j + 1;
      PrefixRun(db, ops, timeout, j);
    }
  }

  lemma PrefixRun(db: Db, ops: seq<Op>, timeout: Time, j: nat)
    requires j < |ops| - 1
    ensures Run(db, ops[..j + 1], timeout) == Run(Step(db, ops[0], timeout), ops[1..][..j], timeout)
    ensures ops[1..][j] == ops[j + 1]
  {
    assert ops[..j + 1][0] == ops[0] && ops[..j + 1][1..] == ops[1..][..j];
  }

  lemma HeldStep(db: Db, op: Op, timeout: Time, id: Id)
    requires Core(db) && id in db.rows && Started(db.rows[id])
    requires db.rows[id].task.value.submission.Accepted? || !Finds(db, op, timeout, id)
    ensures id in Step(db, op, timeout).rows && HeldRows(db.rows[id], Step(db, op, timeout).rows[id])
  {
    StepHolds(db, op, timeout, id);
  }

  /** Over any run in which nothing takes effect as a finding for this task, a started
      submission stays started, in the same attempt. */
  lemma {:induction false} StartedIsHeld(db: Db, ops: seq<Op>, timeout: Time, id: Id)
    requires Core(db) && id in db.rows && Started(db.rows[id])
    requires db.rows[id].task.value.submission.Accepted? || NeverFound(db, ops, timeout, id)
    ensures var b := Run(db, ops, timeout); id in b.rows && HeldRows(db.rows[id], b.rows[id])
    decreases |ops|
  {
    if ops != [] {
      HeldStep(db, ops[0], timeout, id);
      StepKeepsCore(db, ops[0], timeout);
      var next := Step(db, ops[0], timeout);
      if next.rows[id].task.Some? {
        StartedIsHeld(next, ops[1..], timeout, id);
      } else {
        ErasedStaysErased(next, ops[1..], timeout, id);
      }
    }
  }

  lemma {:induction false} ErasedStaysErased(db: Db, ops: seq<Op>, timeout: Time, id: Id)
    requires Core(db) && id in db.rows && db.rows[id].task.None?
    ensures id in Run(db, ops, timeout).rows && Run(db, ops, timeout).rows[id].task.None?
    decreases |ops|
  {
    if ops != [] {
      StepHolds(db, ops[0], timeout, id);
      StepKeepsCore(db, ops[0], timeout);
      ErasedStaysErased(Step(db, ops[0], timeout), ops[1..], timeout, id);
    }
  }

  /** Once the provider has accepted a task, or its identity is known, no run ever
      begins another submission of it, whatever is found or decided. */
  lemma AcceptedIsNeverResubmitted(db: Db, ops: seq<Op>, timeout: Time, id: Id)
    requires Core(db) && id in db.rows && db.rows[id].task.Some? && db.rows[id].task.value.externalID.Some?
    ensures var b := Run(db, ops, timeout).rows;
            id in b && (b[id].task.Some? ==>
                          && b[id].task.value.submissionAttempt == db.rows[id].task.value.submissionAttempt
                          && b[id].task.value.externalID == db.rows[id].task.value.externalID)
  {
    assert RowsOk(id, db.rows[id]);
    StartedIsHeld(db, ops, timeout, id);
    RunLater(db, ops, timeout);
    assert Follows(db.rows[id], Run(db, ops, timeout).rows[id]);
  }

  /** The step `op` begins a submission of task `id` in state `db`. */
  predicate Begins(db: Db, op: Op, timeout: Time, id: Id) {
    id in db.rows && id in Step(db, op, timeout).rows && Raises(db.rows[id], Step(db, op, timeout).rows[id])
  }

  /** No blind resubmission: between two submissions of one task a step takes effect
      as a finding that the earlier one, whose outcome was unknown, was not accepted
      -- through lease expiries, other workers, lost outcomes, cancellations,
      timeouts and revocations. */
  lemma SubmissionsAreSeparated(db: Db, first: Op, between: seq<Op>, second: Op, timeout: Time, id: Id) returns (k: nat)
    requires Core(db) && Begins(db, first, timeout, id)
    requires Begins(Run(Step(db, first, timeout), between, timeout), second, timeout, id)
    ensures k < |between|
    ensures Finds(Run(Step(db, first, timeout), between[..k], timeout), between[k], timeout, id)
  {
    StepHolds(db, first, timeout, id);
    StepKeepsCore(db, first, timeout);
    var begun := Step(db, first, timeout);
    if NeverFound(begun, between, timeout, id) {
      StartedIsHeld(begun, between, timeout, id);
      RunKeepsCore(begun, between, timeout);
      StepHolds(Run(begun, between, timeout), second, timeout, id);
      assert false;
    }
    k := FirstFinding(begun, between, timeout, id);
  }
}
