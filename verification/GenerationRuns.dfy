/** Runs: any number of transactions, in any order, some of them failing. The
    core invariant holds after every run, and the tables of a later state follow
    from those of an earlier one. */
module GenerationRuns {
  import opened Base
  import opened GenerationTask
  import opened GenerationCleanup
  import opened GenerationRows
  import opened GenerationRowsInvariant
  import opened Media
  import opened GenerationStore
  import opened GenerationStoreInvariant
  import opened GenerationStoreProofs
  import opened GenerationStoreErasure
  import opened GenerationStoreAccounts
  import opened GenerationStoreSteps

  // -------------------------------------------------------- the core, for every run

  lemma {:induction false} RunKeepsCore(db: Db, ops: seq<Op>, timeout: Time)
    requires Core(db)
    ensures Core(Run(db, ops, timeout))
    decreases |ops|
  {
    if ops != [] {
      StepKeepsCore(db, ops[0], timeout);
      RunKeepsCore(Step(db, ops[0], timeout), ops[1..], timeout);
    }
  }

  /** No run reactivates an account whose deletion is pending. */
  predicate Disciplined(db: Db, ops: seq<Op>, timeout: Time)
    decreases |ops|
  {
    ops == [] || (!Reactivates(db, ops[0]) && Disciplined(Step(db, ops[0], timeout), ops[1..], timeout))
  }

  lemma {:induction false} RunKeepsAccounts(db: Db, ops: seq<Op>, timeout: Time)
    requires Core(db) && AccountsOk(db) && Disciplined(db, ops, timeout)
    ensures AccountsOk(Run(db, ops, timeout))
    decreases |ops|
  {
    if ops != [] {
      if Apply(db, ops[0], timeout).Ok? {
        ApplyKeepsCore(db, ops[0], timeout, Apply(db, ops[0], timeout).value);
        ApplyKeepsAccounts(db, ops[0], timeout, Apply(db, ops[0], timeout).value);
      }
      RunKeepsAccounts(Step(db, ops[0], timeout), ops[1..], timeout);
    }
  }

  // ------------------------------------------------------------ later table states

  /** How the rows of one task may look later on: it may have been erased, after
      which nothing is added to what is left of it. */
  ghost predicate Follows(a: Rows, b: Rows) {
    && (b.task.Some? ==> a.task.Some? && Advances(a.task.value, b.task.value) && a.audits <= b.audits)
    && (b.hold.Some? ==> a.hold.Some? && HoldStep(a.hold.value, b.hold.value))
    && (forall s :: s in b.cleanups ==>
          if s in a.cleanups then CleanupStep(a.cleanups[s], b.cleanups[s]) else a.task.Some?)
    && (forall s :: s in a.cleanups && s !in b.cleanups ==> b.task.None?)
  }

  lemma FollowsTransitive(a: Rows, b: Rows, c: Rows)
    requires Follows(a, b) && Follows(b, c)
    ensures Follows(a, c)
  {
    forall s | s in c.cleanups && s in a.cleanups ensures CleanupStep(a.cleanups[s], c.cleanups[s]) {
      if s in b.cleanups { CleanupStepTransitive(a.cleanups[s], b.cleanups[s], c.cleanups[s]); }
    }
  }

  lemma StepsFollow(a: Rows, b: Rows)
    requires Steps(a, b)
    ensures Follows(a, b)
  {
  }

  /** Identifiers are never reused, deletions never reopen, erased users never
      come back. */
  ghost predicate Later(a: Db, b: Db) {
    && a.used <= b.used && a.rows.Keys <= b.rows.Keys
    && (forall t :: t in b.rows ==> if t in a.rows then Follows(a.rows[t], b.rows[t]) else t !in a.used)
    && (forall u :: u in a.accounts ==>
          && u in b.accounts && b.accounts[u].id == a.accounts[u].id
          && (a.accounts[u].completedAt.Some? ==> b.accounts[u] == a.accounts[u]))
    && (forall u :: u in b.users ==> u in a.users || u !in a.used)
  }

  lemma LaterTransitive(a: Db, b: Db, c: Db)
    requires Later(a, b) && Later(b, c)
    ensures Later(a, c)
  {
    forall t | t in c.rows ensures if t in a.rows then Follows(a.rows[t], c.rows[t]) else t !in a.used {
      if t in a.rows { FollowsTransitive(a.rows[t], b.rows[t], c.rows[t]); }
    }
  }

  lemma RowsLater(db: Db, b: Db)
    requires db.used <= b.used && b.users.Keys <= db.users.Keys && b.accounts == db.accounts
    requires b.rows.Keys == db.rows.Keys && forall t :: t in db.rows ==> Steps(db.rows[t], b.rows[t])
    ensures Later(db, b)
  {
    forall t | t in b.rows ensures Follows(db.rows[t], b.rows[t]) { StepsFollow(db.rows[t], b.rows[t]); }
  }

  lemma SameRowsLater(db: Db, b: Db)
    requires Core(db) && b.rows == db.rows && db.used <= b.used && b.accounts == db.accounts
    requires forall u :: u in b.users ==> u in db.users || u !in db.used
    ensures Later(db, b)
  {
    forall t | t in b.rows ensures Follows(db.rows[t], b.rows[t]) {
      StepsReflexive(t, db.rows[t]);
      StepsFollow(db.rows[t], b.rows[t]);
    }
  }

  lemma TableLater(db: Db, b: Db, account: Option<Id>)
    requires TableStep(db.rows, b.rows, account)
    requires db.used <= b.used && b.users.Keys <= db.users.Keys && b.accounts == db.accounts
    ensures Later(db, b)
  {
    forall t | t in db.rows ensures Steps(db.rows[t], b.rows[t]) { assert RowStep(db.rows[t], b.rows[t], account); }
    RowsLater(db, b);
  }

  lemma ErasedLater(db: Db, user: Id, at: Time)
    requires Core(db) && DeletionOpen(db, user)
    ensures Later(db, Erase(db, user, at))
  {
    var b := Erase(db, user, at);
    forall t | t in b.rows ensures Follows(db.rows[t], b.rows[t]) {
      ErasedRow(db, t, user);
      StepsReflexive(t, db.rows[t]);
    }
  }

  lemma FinalizeLater(db: Db, user: Id, at: Time)
    requires Core(db) && FinalizeIfReady(db, user, at).Ok?
    ensures var b := FinalizeIfReady(db, user, at).value; Later(db, b) && b.rows.Keys == db.rows.Keys
  {
    SameRowsLater(db, db);
    if DeletionOpen(db, user) { ErasedLater(db, user, at); }
  }

  lemma CompleteDeletionLater(db: Db, event: Id, media: Id, at: Time)
    requires Core(db) && CompleteDeletion(db, event, media, at).Ok?
    ensures var b := CompleteDeletion(db, event, media, at).value; Later(db, b) && b.rows.Keys == db.rows.Keys
  {
    SameRowsLater(db, db);
    if (event, MediaDelete) !in db.files.receipts {
      var files := FinishDeletion(db.files, event, media, at).value;
      var b := db.(files := files);
      FinishedAssetKeepsCore(db, event, media, at);
      SameRowsLater(db, b);
      FinalizeLater(b, files.media[media].owner, at);
      LaterTransitive(db, b, CompleteDeletion(db, event, media, at).value);
    }
  }

  lemma CompleteCleanupLater(db: Db, claimed: Cleanup, at: Time)
    requires Core(db) && CompleteCleanup(db, claimed, at).Ok?
    ensures var b := CompleteCleanup(db, claimed, at).value; Later(db, b) && b.rows.Keys == db.rows.Keys
  {
    var r := CompleteTaskCleanup(db.rows[claimed.task], claimed, at).value;
    var b := db.(rows := db.rows[claimed.task := r]);
    CompletedRowKeepsCore(db, claimed, at);
    TableLater(db, b, None);
    if r.cleanups[claimed.scope].account.Some? {
      FinalizeLater(b, r.cleanups[claimed.scope].owner, at);
      LaterTransitive(db, b, CompleteCleanup(db, claimed, at).value);
    }
  }

  lemma ClosedLater(db: Db, b: Db, user: Id, request: Id)
    requires Core(db) && user !in db.accounts && ClosedFrom(db, b, user, request)
    ensures Later(db, b)
  {
    forall t | t in b.rows ensures Follows(db.rows[t], b.rows[t]) {
      assert RowStep(db.rows[t], b.rows[t], Some(request));
      StepsFollow(db.rows[t], b.rows[t]);
    }
  }

  lemma BeginAccountDeletionLater(db: Db, user: Id, request: Id, at: Time)
    requires Core(db) && BeginAccountDeletion(db, user, request, at).Ok?
    ensures var b := BeginAccountDeletion(db, user, request, at).value; Later(db, b) && b.rows.Keys == db.rows.Keys
  {
    var b := CloseAccount(db, user, request, at).value;
    ClosedTables(db, user, request, at);
    ClosedLater(db, b, user, request);
    ClosingKeepsCore(db, b, user, request);
    if Remaining(db.files, user) == {} {
      FinalizeLater(b, user, at);
      LaterTransitive(db, b, BeginAccountDeletion(db, user, request, at).value);
    }
  }

  lemma AcceptLater(db: Db, f: Facts, p: Policy)
    requires Core(db) && Accept(db, f, p).Ok?
    ensures Later(db, Accept(db, f, p).value)
  {
    var b := Accept(db, f, p).value;
    forall t | t in b.rows && t in db.rows ensures Follows(db.rows[t], b.rows[t]) {
      StepsReflexive(t, db.rows[t]);
      StepsFollow(db.rows[t], db.rows[t]);
    }
  }

  predicate UserOp(op: Op) {
    op.AddUser? || op.AddSession? || op.EndSession? || op.SetStatus? || op.Declare? || op.GiveConsent? || op.Upload?
    || op.Files?
  }

  lemma UserOpShape(db: Db, op: Op, timeout: Time, b: Db)
    requires UserOp(op) && Apply(db, op, timeout) == Ok(b)
    ensures b.rows == db.rows && db.used <= b.used && b.accounts == db.accounts
            && forall u :: u in b.users ==> u in db.users || u !in db.used
  {
  }

  lemma UserOpLater(db: Db, op: Op, timeout: Time, b: Db)
    requires UserOp(op) && Core(db) && Apply(db, op, timeout) == Ok(b)
    ensures Later(db, b) && b.rows == db.rows
  {
    UserOpShape(db, op, timeout, b);
    SameRowsLater(db, b);
  }

  lemma WithdrawLater(db: Db, user: Id, consent: Id, at: Time)
    requires Core(db) && WithdrawConsent(db, user, consent, at).Ok?
    ensures var b := WithdrawConsent(db, user, consent, at).value; Later(db, b) && b.rows.Keys == db.rows.Keys
  {
    WithdrawKeepsCore(db, user, consent, at);
    TableLater(db, WithdrawConsent(db, user, consent, at).value, None);
  }

  lemma DeleteLater(db: Db, user: Id, media: Id, blocked: bool, at: Time)
    requires Core(db) && DeleteMedia(db, user, media, blocked, at).Ok?
    ensures var b := DeleteMedia(db, user, media, blocked, at).value; Later(db, b) && b.rows.Keys == db.rows.Keys
  {
    DeleteKeepsCore(db, user, media, blocked, at);
    TableLater(db, DeleteMedia(db, user, media, blocked, at).value, None);
  }

  lemma TaskCleanupLater(db: Db, user: Id, task: Id, at: Time)
    requires Core(db) && RequestTaskCleanup(db, user, task, at).Ok?
    ensures var b := RequestTaskCleanup(db, user, task, at).value; Later(db, b) && b.rows.Keys == db.rows.Keys
  {
    TaskCleanupKeepsCore(db, user, task, at);
    TableLater(db, RequestTaskCleanup(db, user, task, at).value, None);
  }

  lemma SourceCleanupLater(db: Db, user: Id, media: set<Id>, at: Time)
    requires Core(db) && RequestSourceCleanup(db, user, media, at).Ok?
    ensures var b := RequestSourceCleanup(db, user, media, at).value; Later(db, b) && b.rows.Keys == db.rows.Keys
  {
    SourceCleanupKeepsCore(db, user, media, at);
    TableLater(db, RequestSourceCleanup(db, user, media, at).value, None);
  }

  lemma WorkLater(db: Db, task: Id, op: TaskOp, timeout: Time)
    requires Core(db) && WorkOn(db, task, op, timeout).Ok?
    ensures var b := WorkOn(db, task, op, timeout).value; Later(db, b) && b.rows.Keys == db.rows.Keys
  {
    WorkKeepsCore(db, task, op, timeout);
    TableLater(db, WorkOn(db, task, op, timeout).value, None);
  }

  lemma PublishLater(db: Db, lease: Lease, asset: Asset, timeout: Time, at: Time)
    requires Core(db) && PublishOn(db, lease, asset, timeout, at).Ok?
    ensures var b := PublishOn(db, lease, asset, timeout, at).value; Later(db, b) && b.rows.Keys == db.rows.Keys
  {
    PublishKeepsCore(db, lease, asset, timeout, at);
    RowsLater(db, PublishOn(db, lease, asset, timeout, at).value);
  }

  lemma FinisherLater(db: Db, op: Op, timeout: Time, b: Db)
    requires op.FinishRemoval? || op.FinishCleanup? || op.LeaveAccount?
    requires Core(db) && Apply(db, op, timeout) == Ok(b)
    ensures Later(db, b) && b.rows.Keys == db.rows.Keys
  {
    match op
    case FinishRemoval(event, media, at) => CompleteDeletionLater(db, event, media, at);
    case FinishCleanup(claimed, at) => CompleteCleanupLater(db, claimed, at);
    case LeaveAccount(user, request, at) => BeginAccountDeletionLater(db, user, request, at);
  }

  lemma RevocationLater(db: Db, op: Op, timeout: Time, b: Db)
    requires op.EndConsent? || op.Remove? || op.RevokeTask? || op.RevokeSource?
    requires Core(db) && Apply(db, op, timeout) == Ok(b)
    ensures Later(db, b) && b.rows.Keys == db.rows.Keys
  {
    match op
    case EndConsent(user, consent, at) => WithdrawLater(db, user, consent, at);
    case Remove(user, media, blocked, at) => DeleteLater(db, user, media, blocked, at);
    case RevokeTask(user, task, at) => TaskCleanupLater(db, user, task, at);
    case RevokeSource(user, media, at) => SourceCleanupLater(db, user, {media}, at);
  }

  /** Only an accepted request adds a task. */
  lemma ApplyLater(db: Db, op: Op, timeout: Time, b: Db)
    requires Core(db) && Apply(db, op, timeout) == Ok(b)
    ensures Later(db, b) && (!op.Request? ==> b.rows.Keys == db.rows.Keys)
  {
    if UserOp(op) {
      UserOpLater(db, op, timeout, b);
    } else if op.FinishRemoval? || op.FinishCleanup? || op.LeaveAccount? {
      FinisherLater(db, op, timeout, b);
    } else if op.EndConsent? || op.Remove? || op.RevokeTask? || op.RevokeSource? {
      RevocationLater(db, op, timeout, b);
    } else {
      match op
      case Request(facts, admission) => AcceptLater(db, facts, admission);
      case Work(task, taskOp) => WorkLater(db, task, taskOp, timeout);
      case Publish(lease, asset, at) => PublishLater(db, lease, asset, timeout, at);
    }
  }

  /** Every state of a run is later than every state before it. */
  lemma {:induction false} RunLater(db: Db, ops: seq<Op>, timeout: Time)
    requires Core(db)
    ensures Later(db, Run(db, ops, timeout))
    decreases |ops|
  {
    if ops == [] {
      SameRowsLater(db, db);
    } else {
      var next := Step(db, ops[0], timeout);
      SameRowsLater(db, db);
      if Apply(db, ops[0], timeout).Ok? {
        ApplyKeepsCore(db, ops[0], timeout, Apply(db, ops[0], timeout).value);
        ApplyLater(db, ops[0], timeout, Apply(db, ops[0], timeout).value);
      }
      RunLater(next, ops[1..], timeout);
      LaterTransitive(db, next, Run(db, ops, timeout));
    }
  }
}
