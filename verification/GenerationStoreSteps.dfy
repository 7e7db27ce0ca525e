/** Every committed transaction, of whatever kind, keeps the core invariant; and
    every transaction but one kind keeps the account invariant. */
module GenerationStoreSteps {
  import opened Base
  import opened GenerationTask
  import opened GenerationRows
  import opened GenerationRowsInvariant
  import opened Media
  import opened GenerationStore
  import opened GenerationStoreInvariant
  import opened GenerationStoreProofs
  import opened GenerationStoreAccounts

  // ------------------------------------------------------------------ idle steps

  lemma PeopleAreIdle(db: Db, b: Db)
    requires Core(db) && b == db.(users := b.users, sessions := b.sessions, used := b.used, files := b.files)
    requires b.files == db.files.(consents := b.files.consents)
    requires forall u :: u in db.accounts ==> (u in b.users <==> u in db.users)
    requires forall u :: DeletionOpen(db, u) && u in db.users ==> b.users[u].status == db.users[u].status
    ensures Idle(db, b)
  {
    forall u | DeletionOpen(db, u) && u in db.users
      ensures SameAssets(db.files, b.files, u) && SameTasks(db.rows, b.rows, u)
    {
      SameRowsTasks(db, u);
    }
  }

  lemma TableIsIdle(db: Db, b: Db)
    requires Core(db) && b == db.(rows := b.rows, files := db.files.(consents := b.files.consents))
    requires TableStep(db.rows, b.rows, None) && Untouched(db.rows, b.rows)
    ensures Idle(db, b)
  {
    forall u | DeletionOpen(db, u) && u in db.users
      ensures SameAssets(db.files, b.files, u) && SameTasks(db.rows, b.rows, u)
    {
      TableTasks(db.rows, b.rows, None, u);
    }
  }

  lemma MediaOpIsIdle(db: Db, files: MediaDb)
    requires Core(db) && MediaStep(db.files, files) && SameGone(db.files, files)
    ensures Idle(db, db.(files := files))
  {
    forall u | DeletionOpen(db, u) && u in db.users
      ensures SameAssets(db.files, files, u) && SameTasks(db.rows, db.rows, u)
    {
      SameRowsTasks(db, u);
      forall m | m in db.files.media ensures files.media[m].owner == db.files.media[m].owner {
        assert AssetStep(db.files.media[m], files.media[m]);
      }
    }
  }

  /** A new asset of an active user. */
  lemma UploadIsIdle(db: Db, files: MediaDb, id: Id)
    requires Core(db) && AccountsOk(db) && id !in db.files.media && id in files.media
    requires files.media == db.files.media[id := files.media[id]] && IsActive(db, files.media[id].owner)
    ensures Idle(db, db.(files := files, used := db.used + {id}))
  {
    forall u | DeletionOpen(db, u) && u in db.users
      ensures SameAssets(db.files, files, u) && SameTasks(db.rows, db.rows, u)
    {
      assert AccountOk(db, u);
      SameRowsTasks(db, u);
    }
  }

  /** Only a closed account can be pending, so an active user is not one. */
  lemma ActiveIsNotClosed(db: Db, user: Id, u: Id)
    requires AccountsOk(db) && IsActive(db, user) && DeletionOpen(db, u)
    ensures u != user
  {
    assert AccountOk(db, u);
  }

  lemma NewTaskOfOther(db: Db, id: Id, r: Rows, u: Id)
    requires Core(db) && id !in db.rows && r.task.Some? && r.task.value.facts.owner != u
    ensures SameTasks(db.rows, db.rows[id := r], u)
  {
    forall t | t in db.rows ensures Steps(db.rows[t], db.rows[t]) { StepsReflexive(t, db.rows[t]); }
  }

  /** A new task of an active user. */
  lemma AcceptIsIdle(db: Db, f: Facts, p: Policy)
    requires Core(db) && AccountsOk(db) && Accept(db, f, p).Ok?
    ensures Idle(db, Accept(db, f, p).value)
  {
    var b := Accept(db, f, p).value;
    forall u | DeletionOpen(db, u) && u in db.users
      ensures SameAssets(db.files, b.files, u) && SameTasks(db.rows, b.rows, u)
    {
      ActiveIsNotClosed(db, f.owner, u);
      if b == db { SameRowsTasks(db, u); } else { NewTaskOfOther(db, f.id, b.rows[f.id], u); }
    }
  }

  lemma PublishIsIdle(db: Db, b: Db)
    requires Core(db) && b == db.(rows := b.rows, used := b.used) && b.rows.Keys == db.rows.Keys
    requires (forall t :: t in db.rows ==> Steps(db.rows[t], b.rows[t])) && Untouched(db.rows, b.rows)
    ensures Idle(db, b)
  {
    forall u | DeletionOpen(db, u) && u in db.users
      ensures SameAssets(db.files, b.files, u) && SameTasks(db.rows, b.rows, u)
    {
      StepsTasks(db.rows, b.rows, u);
    }
  }

  /** An asset deleted by its active owner. */
  lemma DeleteIsIdle(db: Db, b: Db, owner: Id, media: Id, at: Time)
    requires Core(db) && AccountsOk(db) && IsActive(db, owner) && media in db.files.media
             && db.files.media[media].owner == owner
    requires b == db.(rows := b.rows, files := b.files) && TableStep(db.rows, b.rows, None)
             && Untouched(db.rows, b.rows)
    requires b.files == db.files || b.files == RequestDeletion(db.files, media, None, at)
    ensures Idle(db, b)
  {
    forall u | DeletionOpen(db, u) && u in db.users
      ensures SameAssets(db.files, b.files, u) && SameTasks(db.rows, b.rows, u)
    {
      ActiveIsNotClosed(db, owner, u);
      TableTasks(db.rows, b.rows, None, u);
      OtherAssets(db.files, media, u, at);
    }
  }

  lemma OtherAssets(f: MediaDb, media: Id, u: Id, at: Time)
    requires media in f.media && f.media[media].owner != u
    ensures SameAssets(f, f, u) && SameAssets(f, RequestDeletion(f, media, None, at), u)
  {
  }

  // ------------------------------------------------------- the core, for every step

  predicate PeopleOp(op: Op) {
    op.AddUser? || op.AddSession? || op.EndSession? || op.SetStatus? || op.Declare? || op.GiveConsent?
  }

  lemma PeopleOpShape(db: Db, op: Op, timeout: Time, b: Db)
    requires PeopleOp(op) && Apply(db, op, timeout) == Ok(b) && db.users.Keys <= db.used
    ensures b == db.(users := b.users, sessions := b.sessions, used := b.used, files := b.files)
            && b.files == db.files.(consents := b.files.consents) && db.used <= b.used
            && db.users.Keys <= b.users.Keys <= b.used
  {
  }

  lemma UserOpKeepsCore(db: Db, op: Op, timeout: Time, b: Db)
    requires PeopleOp(op) && Core(db) && Apply(db, op, timeout) == Ok(b)
    ensures Core(b)
  {
    PeopleOpShape(db, op, timeout, b);
    PeopleKeepCore(db, b);
  }

  lemma UploadKeepsCore(db: Db, op: Op, timeout: Time, b: Db)
    requires op.Upload? && Core(db) && Apply(db, op, timeout) == Ok(b)
    ensures Core(b)
  {
    CreateMediaKeeps(db.files, op.media, op.user, op.purpose, op.category, op.consent, op.jpeg, op.sha, op.at);
    NewAssetKeepsCore(db, b.files, op.media);
  }

  lemma RevocationKeepsCore(db: Db, op: Op, timeout: Time, b: Db)
    requires op.EndConsent? || op.Remove? || op.RevokeTask? || op.RevokeSource?
    requires Core(db) && Apply(db, op, timeout) == Ok(b)
    ensures Core(b)
  {
    match op
    case EndConsent(user, consent, at) => WithdrawKeepsCore(db, user, consent, at);
    case Remove(user, media, blocked, at) => DeleteKeepsCore(db, user, media, blocked, at);
    case RevokeTask(user, task, at) => TaskCleanupKeepsCore(db, user, task, at);
    case RevokeSource(user, media, at) => SourceCleanupKeepsCore(db, user, {media}, at);
  }

  lemma FinisherKeepsCore(db: Db, op: Op, timeout: Time, b: Db)
    requires op.FinishRemoval? || op.FinishCleanup? || op.LeaveAccount?
    requires Core(db) && Apply(db, op, timeout) == Ok(b)
    ensures Core(b)
  {
    match op
    case FinishRemoval(event, media, at) => CompleteDeletionKeeps(db, event, media, at);
    case FinishCleanup(claimed, at) => CompleteCleanupKeeps(db, claimed, at);
    case LeaveAccount(user, request, at) => BeginAccountDeletionKeeps(db, user, request, at);
  }

  lemma ApplyKeepsCore(db: Db, op: Op, timeout: Time, b: Db)
    requires Core(db) && Apply(db, op, timeout) == Ok(b)
    ensures Core(b)
  {
    if PeopleOp(op) {
      UserOpKeepsCore(db, op, timeout, b);
    } else if op.FinishRemoval? || op.FinishCleanup? || op.LeaveAccount? {
      FinisherKeepsCore(db, op, timeout, b);
    } else if op.EndConsent? || op.Remove? || op.RevokeTask? || op.RevokeSource? {
      RevocationKeepsCore(db, op, timeout, b);
    } else {
      match op
      case Upload(_, _, _, _, _, _, _, _) => UploadKeepsCore(db, op, timeout, b);
      case Files(mediaOp) => MediaOpKeepsCore(db, mediaOp);
      case Request(facts, admission) => AcceptKeepsCore(db, facts, admission);
      case Work(task, taskOp) => WorkKeepsCore(db, task, taskOp, timeout);
      case Publish(lease, asset, at) => PublishKeepsCore(db, lease, asset, timeout, at);
    }
  }

  lemma StepKeepsCore(db: Db, op: Op, timeout: Time)
    requires Core(db)
    ensures Core(Step(db, op, timeout))
  {
    if Apply(db, op, timeout).Ok? { ApplyKeepsCore(db, op, timeout, Apply(db, op, timeout).value); }
  }

  // --------------------------------------------------- the accounts, for every step

  /** The one hole: a status change that touches an account being deleted. */
  predicate Reactivates(db: Db, op: Op) {
    op.SetStatus? && DeletionOpen(db, op.user) && !op.status.Leaving?
  }

  /** A successful status change keeps the account invariant if and only if it
      does not reactivate (or suspend) an account whose deletion is pending. */
  lemma SetStatusKeepsAccounts(db: Db, user: Id, expected: nat, status: UserStatus)
    requires Core(db) && AccountsOk(db) && SetUserStatus(db, user, expected, status).Ok?
    ensures AccountsOk(SetUserStatus(db, user, expected, status).value)
            <==> !Reactivates(db, SetStatus(user, expected, status))
  {
    var b := SetUserStatus(db, user, expected, status).value;
    if Reactivates(db, SetStatus(user, expected, status)) {
      assert AccountOk(db, user);
      assert !AccountOk(b, user);
    } else {
      if DeletionOpen(db, user) { assert AccountOk(db, user); }
      PeopleAreIdle(db, b);
      IdleKeepsAccounts(db, b);
    }
  }

  lemma UserOpKeepsAccounts(db: Db, op: Op, timeout: Time, b: Db)
    requires op.AddUser? || op.AddSession? || op.EndSession? || op.Declare? || op.GiveConsent?
    requires Core(db) && AccountsOk(db) && Apply(db, op, timeout) == Ok(b)
    ensures AccountsOk(b)
  {
    PeopleAreIdle(db, b);
    IdleKeepsAccounts(db, b);
  }

  lemma MediaKeepsAccounts(db: Db, op: Op, timeout: Time, b: Db)
    requires op.Upload? || op.Files?
    requires Core(db) && AccountsOk(db) && Apply(db, op, timeout) == Ok(b)
    ensures AccountsOk(b)
  {
    if op.Upload? {
      UploadIsIdle(db, b.files, op.media);
    } else {
      OnMediaKeeps(db.files, op.mediaOp);
      MediaOpIsIdle(db, b.files);
    }
    IdleKeepsAccounts(db, b);
  }

  lemma WithdrawKeepsAccounts(db: Db, user: Id, consent: Id, at: Time)
    requires Core(db) && AccountsOk(db) && WithdrawConsent(db, user, consent, at).Ok?
    ensures AccountsOk(WithdrawConsent(db, user, consent, at).value)
  {
    var b := WithdrawConsent(db, user, consent, at).value;
    WithdrawKeepsCore(db, user, consent, at);
    TableIsIdle(db, b);
    IdleKeepsAccounts(db, b);
  }

  lemma DeleteKeepsAccounts(db: Db, user: Id, media: Id, blocked: bool, at: Time)
    requires Core(db) && AccountsOk(db) && DeleteMedia(db, user, media, blocked, at).Ok?
    ensures AccountsOk(DeleteMedia(db, user, media, blocked, at).value)
  {
    var b := DeleteMedia(db, user, media, blocked, at).value;
    DeleteKeepsCore(db, user, media, blocked, at);
    DeleteIsIdle(db, b, user, media, at);
    IdleKeepsAccounts(db, b);
  }

  lemma RevocationKeepsAccounts(db: Db, op: Op, timeout: Time, b: Db)
    requires op.RevokeTask? || op.RevokeSource?
    requires Core(db) && AccountsOk(db) && Apply(db, op, timeout) == Ok(b)
    ensures AccountsOk(b)
  {
    if op.RevokeTask? {
      TaskCleanupKeepsCore(db, op.user, op.task, op.at);
    } else {
      SourceCleanupKeepsCore(db, op.user, {op.media}, op.at);
    }
    TableIsIdle(db, b);
    IdleKeepsAccounts(db, b);
  }

  lemma TaskKeepsAccounts(db: Db, op: Op, timeout: Time, b: Db)
    requires op.Request? || op.Work? || op.Publish?
    requires Core(db) && AccountsOk(db) && Apply(db, op, timeout) == Ok(b)
    ensures AccountsOk(b)
  {
    match op {
      case Request(facts, admission) => AcceptIsIdle(db, facts, admission);
      case Work(task, taskOp) =>
        WorkKeepsCore(db, task, taskOp, timeout);
        TableIsIdle(db, b);
      case Publish(lease, asset, at) =>
        PublishKeepsCore(db, lease, asset, timeout, at);
        PublishIsIdle(db, b);
    }
    IdleKeepsAccounts(db, b);
  }

  lemma FinisherKeepsAccounts(db: Db, op: Op, timeout: Time, b: Db)
    requires op.FinishRemoval? || op.FinishCleanup? || op.LeaveAccount?
    requires Core(db) && AccountsOk(db) && Apply(db, op, timeout) == Ok(b)
    ensures AccountsOk(b)
  {
    match op
    case FinishRemoval(event, media, at) => CompleteDeletionKeeps(db, event, media, at);
    case FinishCleanup(claimed, at) => CompleteCleanupKeeps(db, claimed, at);
    case LeaveAccount(user, request, at) => BeginAccountDeletionKeeps(db, user, request, at);
  }

  /** Every other transaction keeps the account invariant. */
  lemma ApplyKeepsAccounts(db: Db, op: Op, timeout: Time, b: Db)
    requires Core(db) && AccountsOk(db) && !Reactivates(db, op) && Apply(db, op, timeout) == Ok(b)
    ensures AccountsOk(b)
  {
    if op.FinishRemoval? || op.FinishCleanup? || op.LeaveAccount? {
      FinisherKeepsAccounts(db, op, timeout, b);
    } else if op.Request? || op.Work? || op.Publish? {
      TaskKeepsAccounts(db, op, timeout, b);
    } else if op.RevokeTask? || op.RevokeSource? {
      RevocationKeepsAccounts(db, op, timeout, b);
    } else if op.Upload? || op.Files? {
      MediaKeepsAccounts(db, op, timeout, b);
    } else {
      match op
      case SetStatus(user, expected, status) => SetStatusKeepsAccounts(db, user, expected, status);
      case Remove(user, media, blocked, at) => DeleteKeepsAccounts(db, user, media, blocked, at);
      case EndConsent(user, consent, at) => WithdrawKeepsAccounts(db, user, consent, at);
      case _ => UserOpKeepsAccounts(db, op, timeout, b);
    }
  }
}
