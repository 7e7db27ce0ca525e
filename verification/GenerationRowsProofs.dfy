/** Every transaction on one task keeps the row invariant and is local. */
module GenerationRowsProofs {
  import opened Base
  import opened GenerationTask
  import opened GenerationCleanup
  import opened GenerationRows
  import opened GenerationRowsInvariant

  /** A change that neither settles, revokes nor names the task. */
  lemma QuietKeeps(id: Id, r: Rows, t: Task)
    requires RowsOk(id, r) && r.task.Some? && Valid(t) && Quiet(r.task.value, t)
             && t.externalID == r.task.value.externalID
    ensures var b := r.(task := Some(t)); RowsOk(id, b) && Local(r, b)
  {
    SavedTask(id, r, t);
  }

  lemma LeaseKeeps(id: Id, r: Rows, owner: Id, at: Time, ttl: Time)
    requires RowsOk(id, r) && r.task.Some? && LeaseTask(r, r.task.value, owner, at, ttl).Ok?
    ensures var b := LeaseTask(r, r.task.value, owner, at, ttl).value; RowsOk(id, b) && Local(r, b)
  {
    AcquireIsQuiet(r.task.value, owner, at, ttl);
    QuietKeeps(id, r, AcquireLease(r.task.value, owner, at, ttl).value);
  }

  lemma ExtendedLocal(a: Rows, m: Rows, b: Rows)
    requires Local(a, m) && Extended(m, b)
    ensures Local(a, b)
  {
    if m.task.Some? { assert Advances(m.task.value, m.task.value); }
    ExtendedIsLocal(m, b);
    LocalTransitive(a, m, b);
  }

  lemma ChangeKeeps(id: Id, r: Rows, lease: Lease, m: Mutation, timeout: Time, at: Time)
    requires RowsOk(id, r) && ChangeTask(r, lease, m, timeout, at).Ok?
    ensures var b := ChangeTask(r, lease, m, timeout, at).value; RowsOk(id, b) && Local(r, b)
  {
    var t := r.task.value;
    var changed := Mutate(t, lease, m, timeout, at).value;
    MutateIsQuiet(t, lease, m, timeout, at);
    SavedTask(id, r, changed);
    var saved := r.(task := Some(changed));
    if m.RecordExternalID? {
      SyncKeeps(id, saved, changed, at);
      ExtendedLocal(r, saved, ChangeTask(r, lease, m, timeout, at).value);
    }
  }

  lemma FinalizeKeeps(id: Id, r: Rows, lease: Lease, next: Status, code: Option<Id>, at: Time)
    requires RowsOk(id, r) && FinalizeTask(r, lease, next, code, at).Ok?
    ensures var b := FinalizeTask(r, lease, next, code, at).value; RowsOk(id, b) && Local(r, b)
  {
    FinalizedTask(id, r, r.task.value, next, code, at);
  }

  lemma {:induction false} AddVersionsKeeps(id: Id, r: Rows, t: Task, versions: seq<Id>, at: Time)
    requires RowsOk(id, r) && Revoked(r) && AddVersions(r, t, versions, at).Ok?
    ensures var b := AddVersions(r, t, versions, at).value;
            && RowsOk(id, b) && Extended(r, b)
            && forall s, v :: s in b.cleanups && !s.OrphanScope? && v in versions ==>
                 Lists(b.cleanups[s].targets, ObjectTarget(t.facts.id, KeyOf(t.facts), v))
    decreases |versions|
  {
    if versions == [] {
      forall s | s in r.cleanups ensures CleanupStep(r.cleanups[s], r.cleanups[s]) { }
    } else {
      var target := ObjectTarget(t.facts.id, KeyOf(t.facts), versions[0]);
      AddTargetToRevokedKeeps(id, r, target, at);
      var added := AddTargetToRevoked(r, target, at).value;
      AddVersionsKeeps(id, added, t, versions[1..], at);
      var b := AddVersions(r, t, versions, at).value;
      ExtendedTransitive(r, added, b);
      forall s, v | s in b.cleanups && !s.OrphanScope? && v in versions
        ensures Lists(b.cleanups[s].targets, ObjectTarget(t.facts.id, KeyOf(t.facts), v))
      {
        assert v == versions[0] || v in versions[1..];
        if v == versions[0] { assert Includes(added.cleanups[s], b.cleanups[s]); }
      }
    }
  }

  lemma EnsuredIsLocal(a: Rows, b: Rows, scope: Scope)
    requires Ensured(a, b, scope, None) && ResultOf(a).None?
    ensures Local(a, b)
  {
  }

  /** An expired task is settled without output, revoked and covered, and every
      version in the caller's inventory is listed for deletion. */
  lemma ExpireKeeps(id: Id, r: Rows, provider: Id, cutoff: Time, at: Time, versions: seq<Id>)
    requires RowsOk(id, r) && ExpireTask(r, provider, cutoff, at, versions).Ok?
    ensures var b := ExpireTask(r, provider, cutoff, at, versions).value; RowsOk(id, b) && Local(r, b)
  {
    if r.task.Some? && DueForExpiry(r.task.value, provider, cutoff, at) {
      var t := r.task.value;
      var moment := Max(at, t.updatedAt);
      FinalizedTask(id, r, t, Expired, None, moment);
      var s := FinalizeWithoutOutput(t, r.hold, Expired, None, moment).value;
      var settled := PersistSettlement(r, t.revision, r.hold, s).value;
      EnsureKeeps(id, settled, TaskScope, None, None, moment);
      var ensured := EnsureCleanup(settled, TaskScope, None, None, moment).value;
      EnsuredIsLocal(settled, ensured, TaskScope);
      AddVersionsKeeps(id, ensured, s.task, versions, moment);
      LocalTransitive(r, settled, ensured);
      ExtendedLocal(r, ensured, ExpireTask(r, provider, cutoff, at, versions).value);
    }
  }

  lemma CanceledIsQuiet(t: Task, at: Time)
    requires Valid(t) && RequestCancel(t, at).Ok? && RequestCancel(t, at).value.revision != t.revision
    ensures var c := RequestCancel(t, at).value;
            && Valid(c) && Quiet(t, c) && c.externalID == t.externalID
            && Valid(c.(nextAttemptAt := t.nextAttemptAt)) && Quiet(t, c.(nextAttemptAt := t.nextAttemptAt))
  {
  }

  lemma CancelKeeps(id: Id, r: Rows, owner: Id, at: Time)
    requires RowsOk(id, r) && CancelTask(r, owner, at).Ok?
    ensures var b := CancelTask(r, owner, at).value; RowsOk(id, b) && Local(r, b)
  {
    var t := r.task.value;
    var canceling := RequestCancel(t, at).value;
    if canceling.revision != t.revision {
      CanceledIsQuiet(t, at);
      if Unsubmitted(canceling) {
        FinalizedTask(id, r, canceling, Canceled, None, at);
      } else {
        StoppingKeeps(id, r, owner, at);
      }
    }
  }

  lemma StoppingKeeps(id: Id, r: Rows, owner: Id, at: Time)
    requires RowsOk(id, r) && CancelTask(r, owner, at).Ok? && RequestCancel(r.task.value, at).Ok?
    requires var c := RequestCancel(r.task.value, at).value; c.revision != r.task.value.revision && !Unsubmitted(c)
    ensures var b := CancelTask(r, owner, at).value; RowsOk(id, b) && Local(r, b)
  {
    var t := r.task.value;
    CanceledIsQuiet(t, at);
    QuietKeeps(id, r, RequestCancel(t, at).value.(nextAttemptAt := t.nextAttemptAt));
  }

  lemma ConfirmKeeps(id: Id, r: Rows, owner: Id, at: Time, retention: Time)
    requires RowsOk(id, r) && ConfirmImage(r, owner, at, retention).Ok?
    ensures var b := ConfirmImage(r, owner, at, retention).value; RowsOk(id, b) && Local(r, b)
  {
    var b := ConfirmImage(r, owner, at, retention).value;
    forall s | s in b.cleanups ensures CleanupOk(id, b, s) {
      assert CleanupOk(id, r, s);
    }
  }

  lemma RecordUnpublishedKeeps(id: Id, r: Rows, lease: Lease, target: Target, at: Time)
    requires RowsOk(id, r) && RecordUnpublishedOutput(r, lease, target, at).Ok?
    ensures var b := RecordUnpublishedOutput(r, lease, target, at).value; RowsOk(id, b) && Local(r, b)
  {
    var t := r.task.value;
    if r.output.Some? && r.output.value.asset.key == target.key && r.output.value.asset.version == target.version {
    } else if t.revokedAt.None? {
      RecordOrphanKeeps(id, r, t, target, Max(at, t.updatedAt));
    } else {
      AddTargetToRevokedKeeps(id, r, target, Max(at, t.updatedAt));
      ExtendedIsLocal(r, RecordUnpublishedOutput(r, lease, target, at).value);
    }
  }

  /** Moving one request along its own state machine. */
  ghost predicate Moves(c: Cleanup, d: Cleanup) {
    ValidCleanup(d) && CleanupStep(c, d) && d.targets == c.targets && d.account == c.account
  }

  lemma CleanupMoved(id: Id, r: Rows, scope: Scope, c: Cleanup)
    requires RowsOk(id, r) && scope in r.cleanups && Moves(r.cleanups[scope], c)
    ensures RowsOk(id, r.(cleanups := r.cleanups[scope := c]))
  {
    var b := r.(cleanups := r.cleanups[scope := c]);
    forall s | s in b.cleanups ensures CleanupOk(id, b, s) {
      assert CleanupOk(id, r, s);
    }
  }

  lemma CleanupMovedSteps(r: Rows, scope: Scope, c: Cleanup)
    requires scope in r.cleanups && Moves(r.cleanups[scope], c)
    ensures Steps(r, r.(cleanups := r.cleanups[scope := c]))
  {
    var b := r.(cleanups := r.cleanups[scope := c]);
    forall s | s in r.cleanups ensures CleanupStep(r.cleanups[s], b.cleanups[s]) { }
  }

  lemma RequestMoves(r: Rows, c: Cleanup, at: Time, fault: StableError, retryAt: Time)
    requires ValidCleanup(c)
    ensures Begin(c, at).Ok? ==> Moves(c, Begin(c, at).value)
    ensures Fail(c, at, fault, retryAt).Ok? ==> Moves(c, Fail(c, at, fault, retryAt).value)
    ensures Finish(c, at).Ok? ==> Moves(c, Finish(c, at).value)
    ensures RejectUnsafeTarget(c, at).Ok? ==> Moves(c, RejectUnsafeTarget(c, at).value)
    ensures Exhaust(c, at).Ok? ==> Moves(c, Exhaust(c, at).value)
  {
  }

  lemma ClaimMoves(r: Rows, c: Cleanup, at: Time)
    requires ValidCleanup(c) && !c.status.Complete? && ClaimRequest(r, c, at).Ok?
    ensures var d := ClaimRequest(r, c, at).value; Moves(c, d) && !d.status.Complete?
  {
    RequestMoves(r, c, at, WorkerExpired, at);
    if IdentityMatches(r, c) && c.status.InProgress? && c.attempts < MAX_CLEANUP_ATTEMPTS {
      var e := Fail(c, at, WorkerExpired, at).value;
      RequestMoves(r, e, at, WorkerExpired, at);
      CleanupStepTransitive(c, e, Begin(e, at).value);
    }
  }

  lemma CleanupOpKeeps(id: Id, r: Rows, scope: Scope, c: Cleanup)
    requires RowsOk(id, r) && scope in r.cleanups && Moves(r.cleanups[scope], c)
    requires FinishesNothing(r.cleanups[scope], c)
    ensures var b := r.(cleanups := r.cleanups[scope := c]); RowsOk(id, b) && Local(r, b)
  {
    CleanupMoved(id, r, scope, c);
    CleanupMovedSteps(r, scope, c);
  }

  lemma BeginKeeps(id: Id, r: Rows, scope: Scope, at: Time)
    requires RowsOk(id, r) && BeginTaskCleanup(r, scope, at).Ok?
    ensures var b := BeginTaskCleanup(r, scope, at).value; RowsOk(id, b) && Local(r, b)
  {
    assert CleanupOk(id, r, scope);
    RequestMoves(r, r.cleanups[scope], at, WorkerExpired, at);
    CleanupOpKeeps(id, r, scope, Begin(r.cleanups[scope], at).value);
  }

  lemma ClaimKeeps(id: Id, r: Rows, scope: Scope, at: Time, staleAfter: Time)
    requires RowsOk(id, r) && ClaimTaskCleanup(r, scope, at, staleAfter).Ok?
    ensures var b := ClaimTaskCleanup(r, scope, at, staleAfter).value; RowsOk(id, b) && Local(r, b)
  {
    assert CleanupOk(id, r, scope);
    ClaimMoves(r, r.cleanups[scope], at);
    CleanupOpKeeps(id, r, scope, ClaimRequest(r, r.cleanups[scope], at).value);
  }

  lemma FailKeeps(id: Id, r: Rows, claimed: Cleanup, at: Time, fault: StableError, retryAt: Time)
    requires RowsOk(id, r) && FailTaskCleanup(r, claimed, at, fault, retryAt).Ok?
    ensures var b := FailTaskCleanup(r, claimed, at, fault, retryAt).value; RowsOk(id, b) && Local(r, b)
  {
    assert CleanupOk(id, r, claimed.scope);
    RequestMoves(r, r.cleanups[claimed.scope], at, fault, retryAt);
    CleanupOpKeeps(id, r, claimed.scope, Fail(r.cleanups[claimed.scope], at, fault, retryAt).value);
  }

  /** A finished cleanup: the request is complete, and the output row is gone
      unless the request was for an unpublished version. */
  lemma CompleteKeeps(id: Id, r: Rows, claimed: Cleanup, at: Time)
    requires RowsOk(id, r) && CompleteTaskCleanup(r, claimed, at).Ok?
    ensures var b := CompleteTaskCleanup(r, claimed, at).value;
            && RowsOk(id, b) && Steps(r, b) && b.task == r.task && b.hold == r.hold
            && b.cleanups == r.cleanups[claimed.scope := b.cleanups[claimed.scope]]
            && Moves(r.cleanups[claimed.scope], b.cleanups[claimed.scope])
            && b.cleanups[claimed.scope].status.Complete? && r.cleanups[claimed.scope].status.InProgress?
            && b.output == (if claimed.scope.OrphanScope? then r.output else None)
  {
    var scope := claimed.scope;
    assert CleanupOk(id, r, scope);
    var c := Finish(r.cleanups[scope], at).value;
    RequestMoves(r, r.cleanups[scope], at, WorkerExpired, at);
    CleanupMoved(id, r, scope, c);
    CleanupMovedSteps(r, scope, c);
    if !scope.OrphanScope? { OutputDropped(id, r.(cleanups := r.cleanups[scope := c]), scope); }
  }

  lemma OutputDropped(id: Id, r: Rows, scope: Scope)
    requires RowsOk(id, r) && scope in r.cleanups && !scope.OrphanScope?
    ensures var b := r.(output := None); RowsOk(id, b) && Steps(r, b)
  {
    var b := r.(output := None);
    assert CleanupOk(id, r, scope);
    forall s | s in b.cleanups ensures CleanupOk(id, b, s) {
      assert CleanupOk(id, r, s);
    }
  }

  // ------------------------------------------------------------ reconciliation

  /** Canceled by its owner, or revoked. */
  predicate Stopped(t: Task) { t.cancelRequestedAt.Some? || t.revokedAt.Some? }

  lemma ReconcileRefusedKeeps(id: Id, r: Rows, leased: Task, at: Time)
    requires RowsOk(id, r) && r.task.Some? && TaskOk(id, leased) && Quiet(r.task.value, leased)
    requires leased.externalID == r.task.value.externalID && ReconcileRefused(r, r.task.value, leased, at).Ok?
    ensures var b := ReconcileRefused(r, r.task.value, leased, at).value;
            && RowsOk(id, b) && Local(r, b) && b.audits == r.audits && b.task.Some?
            && b.task.value.status == (if Stopped(leased) then Canceled else Failed)
            && b.task.value.externalID == leased.externalID
  {
    var refused := ReconcileNotAccepted(leased, at).value;
    QuietKeeps(id, r, refused);
    var saved := r.(task := Some(refused));
    var stopped := Stopped(leased);
    var next := if stopped then Canceled else Failed;
    var code := if stopped then None else Some(SUBMISSION_NOT_ACCEPTED);
    FinalizedTask(id, saved, refused, next, code, at);
    LocalTransitive(r, saved, ReconcileRefused(r, r.task.value, leased, at).value);
  }

  lemma ReconcileAcceptedKeeps(id: Id, r: Rows, leased: Task, actor: Id, external: Id, at: Time)
    requires RowsOk(id, r) && r.task.Some? && TaskOk(id, leased) && Quiet(r.task.value, leased)
    requires r.task.value.externalID.None? && leased.externalID.None? && !Terminal(leased.status)
    requires ReconcileAccepted(r, r.task.value, leased, actor, external, at).Ok?
    ensures var b := ReconcileAccepted(r, r.task.value, leased, actor, external, at).value;
            && RowsOk(id, b) && Local(r, b) && b.audits == r.audits && b.task.Some?
            && b.task.value.externalID == Some(external) && b.task.value.status == leased.status
            && b.task.value.leaseUntil.None?
  {
    var t := r.task.value;
    var known := RecordExternal(leased, external, at).value;
    var lease := Lease(t.facts.id, actor, leased.fencing, leased.leaseAttempt, at + ONE_MINUTE);
    var freed := ReleaseLease(known, lease, at).value;
    assert Quiet(t, freed) && TaskOk(id, freed);
    SavedTask(id, r, freed);
    var saved := r.(task := Some(freed));
    assert Local(r, saved);
    if freed.revokedAt.Some? {
      assert saved.cleanups != map[] by { assert Requested(r); }
      SyncKeeps(id, saved, freed, at);
      ExtendedLocal(r, saved, ReconcileAccepted(r, t, leased, actor, external, at).value);
    }
  }

  lemma AuditKeeps(id: Id, r: Rows, b: Rows, audit: Audit)
    requires RowsOk(id, b) && Local(r, b) && b.task.Some?
    ensures var c := b.(audits := b.audits + [audit]); RowsOk(id, c) && Local(r, c)
  {
    var c := b.(audits := b.audits + [audit]);
    forall s | s in c.cleanups ensures CleanupOk(id, c, s) {
      assert CleanupOk(id, b, s);
    }
  }

  lemma ReconcileKeeps(id: Id, r: Rows, actor: Id, expected: nat, decision: Decision, at: Time)
    requires RowsOk(id, r) && ReconcileTask(r, actor, expected, decision, at).Ok?
    ensures var b := ReconcileTask(r, actor, expected, decision, at).value; RowsOk(id, b) && Local(r, b)
  {
    var t := r.task.value;
    AcquireIsQuiet(t, actor, at, ONE_MINUTE);
    var leased := AcquireLease(t, actor, at, ONE_MINUTE).value;
    var b := ReconcileTask(r, actor, expected, decision, at).value;
    match decision {
      case WasAccepted(external) =>
        ReconcileAcceptedKeeps(id, r, leased, actor, external, at);
        AuditKeeps(id, r, ReconcileAccepted(r, t, leased, actor, external, at).value, b.audits[|b.audits| - 1]);
      case WasNotAccepted =>
        ReconcileRefusedKeeps(id, r, leased, at);
        AuditKeeps(id, r, ReconcileRefused(r, t, leased, at).value, b.audits[|b.audits| - 1]);
    }
  }

  /** What an operator's decision leaves behind: the identity on an active, unleased
      task, or a terminal task whose hold is released; and one audit record either way. */
  lemma ReconciliationDecides(id: Id, r: Rows, actor: Id, expected: nat, decision: Decision, at: Time)
    requires RowsOk(id, r) && ReconcileTask(r, actor, expected, decision, at).Ok?
    ensures var t, b := r.task.value, ReconcileTask(r, actor, expected, decision, at).value;
            && b.task.Some? && t.revision == expected && t.submission.Unknown?
            && (exists a :: b.audits == r.audits + [a] && a.actor == actor && a.expected == expected
                            && a.resulting == b.task.value.revision)
            && match decision
               case WasAccepted(external) =>
                 && b.task.value.externalID == Some(external) && !Terminal(b.task.value.status)
                 && b.task.value.leaseUntil.None?
               case WasNotAccepted =>
                 && b.task.value.externalID.None? && b.task.value.status == (if Stopped(t) then Canceled else Failed)
                 && (b.hold.Some? ==> b.hold.value.state.Released?)
  {
    var t := r.task.value;
    AcquireIsQuiet(t, actor, at, ONE_MINUTE);
    var leased := AcquireLease(t, actor, at, ONE_MINUTE).value;
    AcquireShape(t, actor, at, ONE_MINUTE);
    var b := ReconcileTask(r, actor, expected, decision, at).value;
    match decision {
      case WasAccepted(external) => ReconcileAcceptedKeeps(id, r, leased, actor, external, at);
      case WasNotAccepted =>
        ReconcileRefusedKeeps(id, r, leased, at);
        assert HoldOk(b.task.value, b.hold);
    }
    var a := b.audits[|b.audits| - 1];
    assert b.audits == r.audits + [a];
  }

  // ------------------------------------------------------------- every operation

  lemma AcquisitionKeeps(id: Id, r: Rows, op: TaskOp, timeout: Time)
    requires op.Acquire? || op.Claim?
    requires RowsOk(id, r) && OnTask(r, op, timeout).Ok?
    ensures var b := OnTask(r, op, timeout).value; RowsOk(id, b) && Local(r, b)
  {
    LeaseKeeps(id, r, op.owner, op.at, op.ttl);
  }

  lemma RenewKeeps(id: Id, r: Rows, lease: Lease, timeout: Time, at: Time, ttl: Time)
    requires RowsOk(id, r) && OnTask(r, Renew(lease, at, ttl), timeout).Ok?
    ensures var b := OnTask(r, Renew(lease, at, ttl), timeout).value; RowsOk(id, b) && Local(r, b)
  {
    QuietKeeps(id, r, RenewLease(r.task.value, lease, at, ttl).value);
  }

  lemma ReleaseKeeps(id: Id, r: Rows, lease: Lease, timeout: Time, at: Time)
    requires RowsOk(id, r) && OnTask(r, Release(lease, at), timeout).Ok?
    ensures var b := OnTask(r, Release(lease, at), timeout).value; RowsOk(id, b) && Local(r, b)
  {
    QuietKeeps(id, r, ReleaseLease(r.task.value, lease, at).value);
  }

  /** Every transaction on one task keeps its rows well formed; it publishes
      nothing, completes no cleanup, links nothing to an account deletion, and
      revokes a task only while that task has no result. */
  lemma OnTaskKeeps(id: Id, r: Rows, op: TaskOp, timeout: Time)
    requires RowsOk(id, r) && OnTask(r, op, timeout).Ok?
    ensures var b := OnTask(r, op, timeout).value; RowsOk(id, b) && Local(r, b)
  {
    match op
    case Acquire(_, _, _, _) => AcquisitionKeeps(id, r, op, timeout);
    case Claim(_, _, _, _, _) => AcquisitionKeeps(id, r, op, timeout);
    case Renew(lease, at, ttl) => RenewKeeps(id, r, lease, timeout, at, ttl);
    case Release(lease, at) => ReleaseKeeps(id, r, lease, timeout, at);
    case Change(lease, m, at) => ChangeKeeps(id, r, lease, m, timeout, at);
    case Finalize(lease, next, code, at) => FinalizeKeeps(id, r, lease, next, code, at);
    case Expire(provider, cutoff, at, versions) => ExpireKeeps(id, r, provider, cutoff, at, versions);
    case Reconcile(actor, expected, decision, at) => ReconcileKeeps(id, r, actor, expected, decision, at);
    case Cancel(owner, at) => CancelKeeps(id, r, owner, at);
    case Confirm(owner, at, retention) => ConfirmKeeps(id, r, owner, at, retention);
    case RecordUnpublished(lease, target, at) => RecordUnpublishedKeeps(id, r, lease, target, at);
    case BeginCleanup(scope, at) => BeginKeeps(id, r, scope, at);
    case ClaimCleanup(scope, at, staleAfter) => ClaimKeeps(id, r, scope, at, staleAfter);
    case FailCleanup(claimed, at, fault, retryAt) => FailKeeps(id, r, claimed, at, fault, retryAt);
  }

  /** Publishing settles the task with exactly the published output. */
  lemma PublishKeeps(id: Id, r: Rows, lease: Lease, asset: Asset, timeout: Time, at: Time)
    requires RowsOk(id, r) && PublishTask(r, lease, asset, timeout, at).Ok?
    ensures var b := PublishTask(r, lease, asset, timeout, at).value;
            && RowsOk(id, b) && Steps(r, b) && Unlinked(r, b) && !Revoked(b) && ResultOf(b) == Some(asset.id)
            && (ResultOf(r).Some? ==> b == r)
  {
    PublishedTask(id, r, asset, at);
    var b := PublishTask(r, lease, asset, timeout, at).value;
    forall s | s in r.cleanups ensures s.OrphanScope? {
      assert CleanupOk(id, r, s);
    }
  }
}
