/** A provider identity that arrives after the access of its task was revoked: the
    transactions that record it must put it on every cleanup request of the task, and
    fail as a whole when one of them cannot take it. */
module LateIdentity {
  import opened Base
  import opened GenerationTask
  import opened GenerationCleanup
  import opened GenerationRows
  import opened GenerationRowsInvariant
  import opened GenerationStore
  import opened GenerationStoreInvariant

  /** An unpublished-output request can never list a provider target. */
  lemma OrphanListsNoProvider(c: Cleanup, t: Target)
    requires ValidCleanup(c) && c.scope.OrphanScope? && t.ProviderTarget?
    ensures !Lists(c.targets, t)
  {
    forall i | 0 <= i < |c.targets| ensures !SameTarget(c.targets[i], t) {
      assert c.targets[i] in c.targets;
    }
  }

  /** Any other request takes any target of its own task. */
  lemma {:induction false} AddTargetsSucceeds(c: Cleanup, targets: seq<Target>, at: Time)
    requires ValidCleanup(c) && !c.scope.OrphanScope? && c.updatedAt <= at
    requires forall u :: u in targets ==> TargetFits(u, c.owner, c.task)
    ensures AddTargets(c, targets, at).Ok?
    decreases |targets|
  {
    if targets != [] {
      AddTargetSucceeds(c, targets[0], at);
      AddTargetsSucceeds(AddTarget(c, targets[0], at).value, targets[1..], at);
    }
  }

  lemma AddTargetSucceeds(c: Cleanup, t: Target, at: Time)
    requires ValidCleanup(c) && !c.scope.OrphanScope? && c.updatedAt <= at && TargetFits(t, c.owner, c.task)
    ensures AddTarget(c, t, at).Ok?
    ensures var d := AddTarget(c, t, at).value;
            ValidCleanup(d) && d.updatedAt <= at && d.scope == c.scope && d.owner == c.owner && d.task == c.task
  {
    if !Lists(c.targets, t) {
      var d := c.(targets := c.targets + [t], status := Pending, completedAt := None, fault := None,
                  nextAttemptAt := None, updatedAt := at);
      forall i, j | 0 <= i < j < |d.targets| ensures !SameTarget(d.targets[i], d.targets[j]) {
        if j == |c.targets| { assert !SameTarget(c.targets[i], t); }
      }
    }
  }

  lemma KnownTargetsFit(id: Id, r: Rows, scope: Scope)
    requires BaseOk(id, r) && r.task.Some? && scope in r.cleanups
    ensures forall u :: u in KnownTargets(r, r.task.value) ==>
              TargetFits(u, r.cleanups[scope].owner, r.cleanups[scope].task)
    ensures OwnTargets(KnownTargets(r, r.task.value), r.task.value)
  {
    assert CleanupOk(id, r, scope);
  }

  lemma ExtendScopeSucceeds(id: Id, r: Rows, scope: Scope, targets: seq<Target>, at: Time)
    requires BaseOk(id, r) && r.task.Some? && OwnTargets(targets, r.task.value) && !scope.OrphanScope?
    requires scope in r.cleanups ==>
               forall u :: u in targets ==> TargetFits(u, r.cleanups[scope].owner, r.cleanups[scope].task)
    ensures ExtendScope(r, scope, targets, at).Ok?
  {
    if scope in r.cleanups {
      assert CleanupOk(id, r, scope);
      AddTargetsSucceeds(r.cleanups[scope], targets, Max(at, r.cleanups[scope].updatedAt));
    }
  }

  lemma ExtendRevokedSucceeds(id: Id, r: Rows, at: Time)
    requires BaseOk(id, r) && r.task.Some?
    ensures ExtendRevoked(r, KnownTargets(r, r.task.value), at).Ok?
  {
    var known := KnownTargets(r, r.task.value);
    forall s | s in r.cleanups ensures OwnTargets(known, r.task.value)
      ensures forall u :: u in known ==> TargetFits(u, r.cleanups[s].owner, r.cleanups[s].task)
    {
      KnownTargetsFit(id, r, s);
    }
    ExtendScopeSucceeds(id, r, TaskScope, known, at);
    ExtendScopeKeeps(id, r, TaskScope, known, at);
    var r1 := ExtendScope(r, TaskScope, known, at).value;
    ExtendScopeSucceeds(id, r1, SourceScope, known, at);
    ExtendScopeKeeps(id, r1, SourceScope, known, at);
    var r2 := ExtendScope(r1, SourceScope, known, at).value;
    ExtendScopeSucceeds(id, r2, AccountScope, known, at);
  }

  lemma OrphanRefuses(c: Cleanup, targets: seq<Target>, t: Target, at: Time)
    requires ValidCleanup(c) && c.scope.OrphanScope? && t in targets && t.ProviderTarget?
    ensures AddTargets(c, targets, at).Err?
  {
    if AddTargets(c, targets, at).Ok? {
      AddTargetsLists(c, targets, at);
      OrphanListsNoProvider(AddTargets(c, targets, at).value, t);
      assert false;
    }
  }

  /** Synchronizing the requests of a revoked task with its provider identity
      succeeds if and only if no unpublished-output request exists for the task:
      such a request may hold no provider target, and its refusal rolls the whole
      transaction back. */
  lemma OrphanBlocksSync(id: Id, r: Rows, t: Task, at: Time)
    requires BaseOk(id, r) && r.task == Some(t) && t.revokedAt.Some? && t.externalID.Some?
    ensures SyncTargets(r, t, at).Ok? <==> OrphanScope !in r.cleanups
  {
    var moment := Max(at, t.updatedAt);
    var known := KnownTargets(r, t);
    ExtendRevokedSucceeds(id, r, moment);
    var e := ExtendRevoked(r, known, moment).value;
    if OrphanScope in r.cleanups {
      KnownTargetsFit(id, r, OrphanScope);
      ExtendRevokedKeeps(id, r, known, moment);
      assert CleanupOk(id, e, OrphanScope) && TaskTarget(t) in known;
      OrphanRefuses(e.cleanups[OrphanScope], known, TaskTarget(t), Max(moment, e.cleanups[OrphanScope].updatedAt));
    } else {
      NoOrphanAfter(r, known, moment);
    }
  }

  lemma NoOrphanAfter(r: Rows, targets: seq<Target>, at: Time)
    requires ExtendRevoked(r, targets, at).Ok? && OrphanScope !in r.cleanups
    ensures OrphanScope !in ExtendRevoked(r, targets, at).value.cleanups
  {
  }

  // ------------------------------------------------------- the two transactions

  /** Whether an unpublished-output request stands in the way of a late identity. */
  predicate Blocked(r: Rows) { Revoked(r) && OrphanScope in r.cleanups }

  /** Recording is the task update followed by the synchronization. */
  lemma RecordingShape(r: Rows, lease: Lease, external: Id, timeout: Time, at: Time)
    requires r.task.Some? && Valid(r.task.value) && WorkerProof(r.task.value, lease, at).Ok?
    requires RecordExternal(r.task.value, external, at).Ok?
    ensures var known := RecordExternal(r.task.value, external, at).value;
            && (ChangeTask(r, lease, RecordExternalID(external), timeout, at).Ok?
                <==> SyncTargets(r.(task := Some(known)), known, at).Ok?)
            && Mutate(r.task.value, lease, RecordExternalID(external), timeout, at) == Ok(known)
            && known.externalID == Some(external) && known.revokedAt == r.task.value.revokedAt
  {
  }

  lemma RecordingBlockedIff(id: Id, r: Rows, lease: Lease, external: Id, timeout: Time, at: Time)
    requires RowsOk(id, r) && r.task.Some? && WorkerProof(r.task.value, lease, at).Ok?
    requires RecordExternal(r.task.value, external, at).Ok?
    ensures ChangeTask(r, lease, RecordExternalID(external), timeout, at).Ok? <==> !Blocked(r)
  {
    RecordingShape(r, lease, external, timeout, at);
    var known := RecordExternal(r.task.value, external, at).value;
    MutateIsQuiet(r.task.value, lease, RecordExternalID(external), timeout, at);
    SavedTask(id, r, known);
    if known.revokedAt.Some? { OrphanBlocksSync(id, r.(task := Some(known)), known, at); }
  }

  /** A worker that presents the current lease and an identity the task may take
      records it if and only if the task is not revoked or has no unpublished-output
      request. */
  lemma LateIdentityBlockedIff(db: Db, id: Id, lease: Lease, external: Id, timeout: Time, at: Time)
    requires Core(db) && id in db.rows && db.rows[id].task.Some?
    requires WorkerProof(db.rows[id].task.value, lease, at).Ok?
             && RecordExternal(db.rows[id].task.value, external, at).Ok?
    ensures WorkOn(db, id, Change(lease, RecordExternalID(external), at), timeout).Ok? <==> !Blocked(db.rows[id])
  {
    assert RowsOk(id, db.rows[id]);
    RecordingBlockedIff(id, db.rows[id], lease, external, timeout, at);
  }

  /** What an operator's late acceptance demands of the task row. */
  predicate Reconcilable(t: Task, actor: Id, expected: nat, at: Time) {
    && t.revision == expected && expected + 2 < MAX_INT && t.submission.Unknown? && t.externalID.None?
       && !Terminal(t.status)
    && at > 0 && AcquireLease(t, actor, at, ONE_MINUTE).Ok?
  }

  lemma AcceptanceShape(t: Task, leased: Task, actor: Id, external: Id, at: Time)
    requires Valid(t) && t.submission.Unknown? && t.externalID.None? && !Terminal(t.status) && t.revision + 2 < MAX_INT
    requires at > 0 && AcquireLease(t, actor, at, ONE_MINUTE) == Ok(leased)
    ensures RecordExternal(leased, external, at).Ok?
    ensures var lease := Lease(t.facts.id, actor, leased.fencing, leased.leaseAttempt, at + ONE_MINUTE);
            var freed := ReleaseLease(RecordExternal(leased, external, at).value, lease, at);
            && freed.Ok? && Valid(freed.value) && Quiet(t, freed.value) && freed.value.externalID == Some(external)
  {
    AcquireIsQuiet(t, actor, at, ONE_MINUTE);
    AcquireShape(t, actor, at, ONE_MINUTE);
    var known := RecordExternal(leased, external, at).value;
    assert Valid(known);
  }

  lemma AcceptingShape(r: Rows, actor: Id, expected: nat, external: Id, at: Time)
    requires r.task.Some? && Valid(r.task.value) && Reconcilable(r.task.value, actor, expected, at)
    ensures var t := r.task.value;
            var leased := AcquireLease(t, actor, at, ONE_MINUTE).value;
            ReconcileTask(r, actor, expected, WasAccepted(external), at).Ok?
            <==> ReconcileAccepted(r, t, leased, actor, external, at).Ok?
                 && Load(ReconcileAccepted(r, t, leased, actor, external, at).value).Ok?
  {
  }

  lemma AcceptingBlockedIff(id: Id, r: Rows, actor: Id, expected: nat, external: Id, at: Time)
    requires RowsOk(id, r) && r.task.Some? && Reconcilable(r.task.value, actor, expected, at)
    ensures ReconcileTask(r, actor, expected, WasAccepted(external), at).Ok? <==> !Blocked(r)
  {
    var t := r.task.value;
    var leased := AcquireLease(t, actor, at, ONE_MINUTE).value;
    AcceptingShape(r, actor, expected, external, at);
    AcceptanceShape(t, leased, actor, external, at);
    var known := RecordExternal(leased, external, at).value;
    var lease := Lease(t.facts.id, actor, leased.fencing, leased.leaseAttempt, at + ONE_MINUTE);
    var freed := ReleaseLease(known, lease, at).value;
    SavedTask(id, r, freed);
    SavedAccepted(r, t, leased, actor, external, at, freed);
    if freed.revokedAt.Some? { OrphanBlocksSync(id, r.(task := Some(freed)), freed, at); }
  }

  /** Accepting is the task update followed by the synchronization. */
  lemma SavedAccepted(r: Rows, t: Task, leased: Task, actor: Id, external: Id, at: Time, freed: Task)
    requires r.task == Some(t) && Valid(freed) && freed.revokedAt == t.revokedAt && (Revoked(r) ==> r.cleanups != map[])
    requires RecordExternal(leased, external, at).Ok?
    requires ReleaseLease(RecordExternal(leased, external, at).value,
                          Lease(t.facts.id, actor, leased.fencing, leased.leaseAttempt, at + ONE_MINUTE), at)
                            == Ok(freed)
    ensures var saved, b := r.(task := Some(freed)), ReconcileAccepted(r, t, leased, actor, external, at);
            if freed.revokedAt.None? then b == Ok(saved) else b == SyncTargets(saved, freed, at)
    ensures SyncTargets(r.(task := Some(freed)), freed, at).Ok? ==>
              SyncTargets(r.(task := Some(freed)), freed, at).value.task == Some(freed)
  {
  }

  /** An administrator's late acceptance of an unknown submission is recorded under
      the same condition. */
  lemma LateAcceptanceBlockedIff(db: Db, id: Id, actor: Id, expected: nat, external: Id, timeout: Time, at: Time)
    requires Core(db) && IsActive(db, actor) && db.users[actor].role.Admin?
    requires id in db.rows && db.rows[id].task.Some? && Reconcilable(db.rows[id].task.value, actor, expected, at)
    ensures WorkOn(db, id, Reconcile(actor, expected, WasAccepted(external), at), timeout).Ok?
            <==> !Blocked(db.rows[id])
  {
    assert RowsOk(id, db.rows[id]);
    AcceptingBlockedIff(id, db.rows[id], actor, expected, external, at);
    AcceptingIsWork(db, id, actor, expected, external, timeout, at);
  }

  lemma AcceptingIsWork(db: Db, id: Id, actor: Id, expected: nat, external: Id, timeout: Time, at: Time)
    requires IsActive(db, actor) && db.users[actor].role.Admin? && id in db.rows
    ensures WorkOn(db, id, Reconcile(actor, expected, WasAccepted(external), at), timeout).Ok?
            <==> ReconcileTask(db.rows[id], actor, expected, WasAccepted(external), at).Ok?
  {
  }
}
