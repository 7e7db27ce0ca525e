/** What the generation tables promise over whole runs: revocation closes over
    media, images and models; settlement is atomic; cleanup requests miss nothing;
    and a superseded worker never commits. */
module GenerationGuarantees {
  import opened Base
  import opened GenerationTask
  import opened GenerationCleanup
  import opened GenerationRows
  import opened GenerationRowsInvariant
  import opened GenerationRowsProofs
  import opened Media
  import opened GenerationStore
  import opened GenerationStoreInvariant
  import opened GenerationRuns

  // -------------------------------------------------------------- reachable states

  lemma EmptyIsCore()
    ensures Core(EMPTY)
  {
  }

  /** In every reachable state a deleted input has revoked every image task that
      captured it, and a revoked image has revoked every model built on it. */
  lemma RevocationIsClosed(ops: seq<Op>, timeout: Time, image: Id, model: Id, ref: Reference)
    ensures var db := Run(EMPTY, ops, timeout);
            && (image in db.rows && IsImage(db.rows[image]) && ref in db.rows[image].task.value.facts.references ==>
                  && ref.media in db.files.media
                  && (Gone(db.files.media[ref.media].status) ==> Revoked(db.rows[image])))
            && (image in db.rows && model in db.rows && BuiltOn(db.rows[model], db.rows[image])
                && Revoked(db.rows[image])
                ==> Revoked(db.rows[model]))
  {
    EmptyIsCore();
    RunKeepsCore(EMPTY, ops, timeout);
    var db := Run(EMPTY, ops, timeout);
    if image in db.rows && IsImage(db.rows[image]) && ref in db.rows[image].task.value.facts.references {
      assert SourceOk(db.files, db.rows[image], ref);
    }
  }

  /** In every reachable state the hold, the output and the status of a task agree:
      the hold is reserved exactly while the task is active, consumed exactly when
      it succeeded; a readable success has exactly its own output, and a task that
      ended otherwise has none. */
  lemma SettlementIsAtomic(ops: seq<Op>, timeout: Time, id: Id)
    ensures var db := Run(EMPTY, ops, timeout);
            id in db.rows && db.rows[id].task.Some? ==>
              var r, t := db.rows[id], db.rows[id].task.value;
              && (r.hold.Some? <==> HasCost(t.facts.cost))
              && (r.hold.Some? ==>
                    && (r.hold.value.state.Reserved? <==> !Terminal(t.status))
                    && (r.hold.value.state.Consumed? <==> t.status.Succeeded?))
              && (t.status.Succeeded? && t.revokedAt.None? ==> r.output.Some? && ValidAsset(t, r.output.value.asset))
              && (r.output.Some? ==> t.status.Succeeded? && t.result == Some(r.output.value.asset.id))
              && (!t.status.Succeeded? ==> r.output.None? && t.result.None?)
  {
    EmptyIsCore();
    RunKeepsCore(EMPTY, ops, timeout);
    var db := Run(EMPTY, ops, timeout);
    if id in db.rows { assert RowsOk(id, db.rows[id]); }
  }

  /** In every reachable state a revoked task has an owner request, and each such
      request lists the provider task as soon as its identity is known and the
      output as long as its row exists. */
  lemma CleanupMissesNothing(ops: seq<Op>, timeout: Time, id: Id, scope: Scope)
    ensures var db := Run(EMPTY, ops, timeout);
            id in db.rows && Revoked(db.rows[id]) ==>
              var r, t := db.rows[id], db.rows[id].task.value;
              && Requested(r)
              && (scope in r.cleanups && !scope.OrphanScope? ==>
                    && (t.externalID.Some? ==> Lists(r.cleanups[scope].targets, TaskTarget(t)))
                    && (r.output.Some? ==> Lists(r.cleanups[scope].targets, OutputTarget(r.output.value))))
  {
    EmptyIsCore();
    RunKeepsCore(EMPTY, ops, timeout);
    var db := Run(EMPTY, ops, timeout);
    if id in db.rows {
      assert RowsOk(id, db.rows[id]);
      if scope in db.rows[id].cleanups && !scope.OrphanScope? && db.rows[id].task.Some? {
        assert ListsAll(db.rows[id].cleanups[scope], db.rows[id], db.rows[id].task.value);
      }
    }
  }

  // ------------------------------------------------------------------- fencing

  /** The lease a worker presents with a transaction, if it presents one. */
  function Presented(op: Op): Option<Lease> {
    match op
    case Publish(lease, _, _) => Some(lease)
    case Work(_, Renew(lease, _, _)) => Some(lease)
    case Work(_, Release(lease, _)) => Some(lease)
    case Work(_, Change(lease, _, _)) => Some(lease)
    case Work(_, Finalize(lease, _, _, _)) => Some(lease)
    case Work(_, RecordUnpublished(lease, _, _)) => Some(lease)
    case _ => None
  }

  function MomentOf(op: Op): Time
    requires Presented(op).Some?
  {
    match op
    case Publish(_, _, at) => at
    case Work(_, taskOp) => taskOp.at
  }

  predicate HoldsToken(t: Task, lease: Lease) {
    lease.task == t.facts.id && t.fencing == lease.token && t.leaseAttempt == lease.attempt
  }

  ghost predicate ProvesCurrent(t: Task, lease: Lease, at: Time) {
    && HoldsToken(t, lease)
    && (!Terminal(t.status) ==>
          t.leaseOwner == Some(lease.owner) && t.leaseUntil == Some(lease.expiresAt) && at < lease.expiresAt)
  }

  lemma WorkNeedsCurrentLease(r: Rows, op: TaskOp, timeout: Time)
    requires Presented(Work(0, op)).Some? && OnTask(r, op, timeout).Ok?
    ensures r.task.Some? && ProvesCurrent(r.task.value, Presented(Work(0, op)).value, op.at)
  {
    var t := r.task.value;
    var lease := Presented(Work(0, op)).value;
    match op
    case Renew(_, at, ttl) => assert RenewLease(t, lease, at, ttl).Ok?;
    case Release(_, at) => assert ReleaseLease(t, lease, at).Ok?;
    case Change(_, m, at) => assert ChangeTask(r, lease, m, timeout, at).Ok?;
    case Finalize(_, next, code, at) => assert FinalizeTask(r, lease, next, code, at).Ok?;
    case RecordUnpublished(_, target, at) => assert RecordUnpublishedOutput(r, lease, target, at).Ok?;
  }

  lemma PublishNeedsCurrentLease(db: Db, lease: Lease, asset: Asset, timeout: Time, at: Time)
    requires PublishOn(db, lease, asset, timeout, at).Ok?
    ensures lease.task in db.rows && db.rows[lease.task].task.Some?
            && ProvesCurrent(db.rows[lease.task].task.value, lease, at)
  {
    assert PublishTask(db.rows[lease.task], lease, asset, timeout, at).Ok?;
  }

  /** No worker transaction commits unless its token and attempt are the row's
      current ones; while the task is active the whole lease must be the current
      one, and unexpired. */
  lemma CommitNeedsCurrentLease(db: Db, op: Op, timeout: Time, b: Db)
    requires Core(db) && Presented(op).Some? && Apply(db, op, timeout) == Ok(b)
    ensures var lease := Presented(op).value;
            && lease.task in db.rows && db.rows[lease.task].task.Some?
            && ProvesCurrent(db.rows[lease.task].task.value, lease, MomentOf(op))
               && (op.Work? ==> op.task == lease.task)
  {
    if op.Work? {
      assert WorkOn(db, op.task, op.taskOp, timeout).Ok?;
      WorkNeedsCurrentLease(db.rows[op.task], op.taskOp, timeout);
      assert RowsOk(op.task, db.rows[op.task]);
    } else {
      PublishNeedsCurrentLease(db, op.lease, op.asset, timeout, op.at);
    }
  }

  /** A lease taken after `lease` was issued: its token or attempt is not the
      row's, although it was not issued ahead of the row. */
  predicate Superseded(db: Db, lease: Lease) {
    lease.task in db.rows && db.rows[lease.task].task.Some?
    && lease.token <= db.rows[lease.task].task.value.fencing && !HoldsToken(db.rows[lease.task].task.value, lease)
  }

  /** A superseded worker never commits again: not in this state, and not after
      any further run, whatever other workers, timeouts, cancellations, releases or
      erasures happen in between. */
  lemma SupersededNeverCommits(db: Db, ops: seq<Op>, op: Op, timeout: Time)
    requires Core(db) && Presented(op).Some? && Superseded(db, Presented(op).value)
    ensures Apply(Run(db, ops, timeout), op, timeout).Err?
  {
    var lease := Presented(op).value;
    var later := Run(db, ops, timeout);
    RunKeepsCore(db, ops, timeout);
    RunLater(db, ops, timeout);
    assert Follows(db.rows[lease.task], later.rows[lease.task]);
    if Apply(later, op, timeout).Ok? { CommitNeedsCurrentLease(later, op, timeout, Apply(later, op, timeout).value); }
  }

  /** Every acquisition supersedes every lease issued before it, and only succeeds
      once the lease before it has run out. */
  lemma AcquisitionSupersedes(db: Db, task: Id, op: TaskOp, timeout: Time, earlier: Lease)
    requires Core(db) && (op.Acquire? || op.Claim?) && Apply(db, Work(task, op), timeout).Ok?
    requires earlier.task == task && earlier.token <= db.rows[task].task.value.fencing
    ensures Superseded(Apply(db, Work(task, op), timeout).value, earlier)
    ensures var t := db.rows[task].task.value; t.leaseUntil.Some? ==> t.leaseUntil.value <= op.at
  {
    assert RowsOk(task, db.rows[task]);
    AcquisitionShape(db.rows[task], op, timeout);
    AcquireIsQuiet(db.rows[task].task.value, op.owner, op.at, op.ttl);
  }

  lemma AcquisitionShape(r: Rows, op: TaskOp, timeout: Time)
    requires (op.Acquire? || op.Claim?) && OnTask(r, op, timeout).Ok?
    ensures r.task.Some? && AcquireLease(r.task.value, op.owner, op.at, op.ttl).Ok?
    ensures OnTask(r, op, timeout).value == r.(task := Some(AcquireLease(r.task.value, op.owner, op.at, op.ttl).value))
  {
  }

  /** A timeout changes nothing while a worker lease is live, and settles an
      overdue task as expired and revoked otherwise. */
  lemma TimeoutRespectsLease(id: Id, r: Rows, provider: Id, cutoff: Time, at: Time, versions: seq<Id>)
    requires RowsOk(id, r) && r.task.Some? && ExpireTask(r, provider, cutoff, at, versions).Ok?
    ensures var t, b := r.task.value, ExpireTask(r, provider, cutoff, at, versions).value;
            && (t.leaseUntil.Some? && at < t.leaseUntil.value ==> b == r)
            && (b != r ==>
                  !Terminal(t.status) && t.facts.createdAt <= cutoff && Revoked(b) && b.task.value.status.Expired?)
  {
    ExpireKeeps(id, r, provider, cutoff, at, versions);
    if DueForExpiry(r.task.value, provider, cutoff, at) {
      var t := r.task.value;
      var moment := Max(at, t.updatedAt);
      FinalizedTask(id, r, t, Expired, None, moment);
      var s := FinalizeWithoutOutput(t, r.hold, Expired, None, moment).value;
      var settled := PersistSettlement(r, t.revision, r.hold, s).value;
      EnsureKeeps(id, settled, TaskScope, None, None, moment);
      var ensured := EnsureCleanup(settled, TaskScope, None, None, moment).value;
      AddVersionsKeeps(id, ensured, s.task, versions, moment);
    }
  }

  /** The versions in the caller's inventory are all queued for deletion. */
  lemma TimeoutQueuesVersions(id: Id, r: Rows, provider: Id, cutoff: Time, at: Time, versions: seq<Id>, version: Id,
                              scope: Scope)
    requires RowsOk(id, r) && r.task.Some? && DueForExpiry(r.task.value, provider, cutoff, at)
    requires ExpireTask(r, provider, cutoff, at, versions).Ok? && version in versions && !scope.OrphanScope?
    ensures var b := ExpireTask(r, provider, cutoff, at, versions).value;
            && TaskScope in b.cleanups
            && (scope in b.cleanups ==>
                  Lists(b.cleanups[scope].targets, ObjectTarget(id, KeyOf(r.task.value.facts), version)))
  {
    var t := r.task.value;
    var moment := Max(at, t.updatedAt);
    FinalizedTask(id, r, t, Expired, None, moment);
    var s := FinalizeWithoutOutput(t, r.hold, Expired, None, moment).value;
    var settled := PersistSettlement(r, t.revision, r.hold, s).value;
    EnsureKeeps(id, settled, TaskScope, None, None, moment);
    var ensured := EnsureCleanup(settled, TaskScope, None, None, moment).value;
    AddVersionsKeeps(id, ensured, s.task, versions, moment);
  }

  // ---------------------------------------------------------------- cancellation

  /** A cancellation that leaves the task active stores what the domain rule
      computed if and only if the task was not waiting: the retry instant, which the
      rule clears, is not written. A waiting task is therefore handed out no earlier
      than before the cancellation. */
  lemma CancelIsExactIff(r: Rows, owner: Id, at: Time, queue: Queue, from: Option<Id>, timeout: Time, now: Time)
    requires CancelTask(r, owner, at).Ok? && CancelTask(r, owner, at).value != r
    requires !Unsubmitted(RequestCancel(r.task.value, at).value)
    ensures var b := CancelTask(r, owner, at).value.task;
            && b.Some?
            && (b.value == RequestCancel(r.task.value, at).value <==> r.task.value.nextAttemptAt.None?)
            && (Claimable(b.value, queue, from, timeout, now) <==> Claimable(r.task.value, queue, from, timeout, now))
  {
    var t := r.task.value;
    assert RequestCancel(t, at).value.nextAttemptAt.None?;
  }
}
