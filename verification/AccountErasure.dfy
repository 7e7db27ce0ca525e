/** What account deletion promises: it is never forgotten, it erases only what is
    finished, it erases everything, it does so once, and nobody signs in while it
    lasts -- and exactly when a status change breaks that. */
module AccountErasure {
  import opened Base
  import opened GenerationTask
  import opened GenerationCleanup
  import opened GenerationRows
  import opened GenerationRowsInvariant
  import opened GenerationRowsProofs
  import opened Media
  import opened GenerationStore
  import opened GenerationStoreInvariant
  import opened GenerationStoreErasure
  import opened GenerationStoreAccounts
  import opened GenerationRuns
  import opened GenerationGuarantees

  lemma EmptyAccounts()
    ensures AccountsOk(EMPTY)
  {
  }

  /** After every run that reactivates no closing account: whoever finishes last
      finalizes, so a deletion that is still open has an asset that is not deleted
      or a linked cleanup request that is not complete. */
  lemma NoDeletionIsForgotten(ops: seq<Op>, timeout: Time, user: Id)
    requires Disciplined(EMPTY, ops, timeout)
    ensures var db := Run(EMPTY, ops, timeout);
            DeletionOpen(db, user) ==> Closed(db, user) && Outstanding(db, user)
  {
    EmptyIsCore();
    EmptyAccounts();
    RunKeepsAccounts(EMPTY, ops, timeout);
    var db := Run(EMPTY, ops, timeout);
    if DeletionOpen(db, user) { assert AccountOk(db, user); }
  }

  // ----------------------------------------------------------------- erasure is safe

  /** The tables a finisher has written when it looks whether all is finished. */
  function BeforeFinalize(db: Db, op: Op): Db {
    match op
    case FinishRemoval(event, media, at) =>
      var files := FinishDeletion(db.files, event, media, at);
      if files.Ok? then db.(files := files.value) else db
    case FinishCleanup(claimed, at) =>
      if claimed.task !in db.rows then db
      else
        var r := CompleteTaskCleanup(db.rows[claimed.task], claimed, at);
        if r.Ok? then db.(rows := db.rows[claimed.task := r.value]) else db
    case LeaveAccount(user, request, at) =>
      if user !in db.users then db
      else
        var closed := CloseAccount(db, user, request, at);
        if closed.Ok? then closed.value else db
    case _ => db
  }

  lemma WorkKeepsUsers(db: Db, task: Id, op: TaskOp, timeout: Time)
    requires WorkOn(db, task, op, timeout).Ok?
    ensures WorkOn(db, task, op, timeout).value.users == db.users
  {
  }

  lemma AcceptKeepsUsers(db: Db, f: Facts, p: Policy)
    requires Accept(db, f, p).Ok?
    ensures Accept(db, f, p).value.users == db.users
  {
  }

  lemma DeleteKeepsUsers(db: Db, owner: Id, media: Id, blocked: bool, at: Time)
    requires DeleteMedia(db, owner, media, blocked, at).Ok?
    ensures DeleteMedia(db, owner, media, blocked, at).value.users == db.users
  {
  }

  lemma WithdrawKeepsUsers(db: Db, owner: Id, consent: Id, at: Time)
    requires WithdrawConsent(db, owner, consent, at).Ok?
    ensures WithdrawConsent(db, owner, consent, at).value.users == db.users
  {
    var c := db.files.consents[consent];
    var withdrawn := if c.withdrawnAt.None? then c.(withdrawnAt := Some(at)) else c;
    var saved := db.(files := db.files.(consents := db.files.consents[consent := withdrawn]));
    var media := GivenUnder(db.files, owner, consent, c.purpose);
    if c.purpose.GenerationInput? && media != {} { SourcesKeepUsers(saved, owner, media, at); }
  }

  lemma SourcesKeepUsers(db: Db, owner: Id, media: set<Id>, at: Time)
    requires RequestSourceCleanup(db, owner, media, at).Ok?
    ensures RequestSourceCleanup(db, owner, media, at).value.users == db.users
  {
  }

  lemma PublishKeepsUsers(db: Db, lease: Lease, asset: Asset, timeout: Time, at: Time)
    requires PublishOn(db, lease, asset, timeout, at).Ok?
    ensures PublishOn(db, lease, asset, timeout, at).value.users == db.users
  {
  }

  lemma SimpleKeepUsers(db: Db, op: Op, timeout: Time, b: Db)
    requires UserOp(op) || op.RevokeTask? || op.RevokeSource?
    requires Apply(db, op, timeout) == Ok(b)
    ensures db.users.Keys <= b.users.Keys
  {
  }

  lemma OthersKeepUsers(db: Db, op: Op, timeout: Time, b: Db)
    requires !op.FinishRemoval? && !op.FinishCleanup? && !op.LeaveAccount? && Apply(db, op, timeout) == Ok(b)
    ensures db.users.Keys <= b.users.Keys
  {
    match op
    case Work(task, taskOp) => WorkKeepsUsers(db, task, taskOp, timeout);
    case Request(facts, admission) => AcceptKeepsUsers(db, facts, admission);
    case Remove(user, media, blocked, at) => DeleteKeepsUsers(db, user, media, blocked, at);
    case EndConsent(user, consent, at) => WithdrawKeepsUsers(db, user, consent, at);
    case Publish(lease, asset, at) => PublishKeepsUsers(db, lease, asset, timeout, at);
    case _ => SimpleKeepUsers(db, op, timeout, b);
  }

  /** Whatever changes the users below is one finalization of `mid`. */
  ghost predicate Finalizes(mid: Db, b: Db, at: Time) {
    b.users == mid.users || exists u :: FinalizeIfReady(mid, u, at) == Ok(b)
  }

  lemma RemovalFinalizes(db: Db, event: Id, media: Id, at: Time)
    requires CompleteDeletion(db, event, media, at).Ok?
    ensures var mid := BeforeFinalize(db, FinishRemoval(event, media, at));
            Finalizes(mid, CompleteDeletion(db, event, media, at).value, at) && mid.users == db.users
  {
    var mid := BeforeFinalize(db, FinishRemoval(event, media, at));
    if (event, MediaDelete) !in db.files.receipts {
      assert FinalizeIfReady(mid, mid.files.media[media].owner, at) == CompleteDeletion(db, event, media, at);
    }
  }

  lemma CleanupFinalizes(db: Db, claimed: Cleanup, at: Time)
    requires CompleteCleanup(db, claimed, at).Ok?
    ensures var mid := BeforeFinalize(db, FinishCleanup(claimed, at));
            Finalizes(mid, CompleteCleanup(db, claimed, at).value, at) && mid.users == db.users
  {
    var mid := BeforeFinalize(db, FinishCleanup(claimed, at));
    var c := mid.rows[claimed.task].cleanups[claimed.scope];
    if c.account.Some? { assert FinalizeIfReady(mid, c.owner, at) == CompleteCleanup(db, claimed, at); }
  }

  lemma ClosedUsers(db: Db, user: Id, request: Id, at: Time)
    requires BeginAccountDeletion(db, user, request, at).Ok?
    ensures user in db.users && CloseAccount(db, user, request, at).Ok?
    ensures CloseAccount(db, user, request, at).value.users.Keys == db.users.Keys
    ensures CloseAccount(db, user, request, at).value.accounts
            == db.accounts[user := AccountDeletion(request, at, None)]
    ensures var mid := CloseAccount(db, user, request, at).value;
            || BeginAccountDeletion(db, user, request, at) == Ok(mid)
            || BeginAccountDeletion(db, user, request, at) == FinalizeIfReady(mid, user, at)
  {
    BegunShape(db, user, request, at);
    CloseShape(db, user, request, at);
  }

  /** Closing comes first, and finalization at most after it. */
  lemma BegunShape(db: Db, user: Id, request: Id, at: Time)
    requires BeginAccountDeletion(db, user, request, at).Ok?
    ensures user in db.users && CloseAccount(db, user, request, at).Ok?
    ensures var mid := CloseAccount(db, user, request, at).value;
            || BeginAccountDeletion(db, user, request, at) == Ok(mid)
            || BeginAccountDeletion(db, user, request, at) == FinalizeIfReady(mid, user, at)
  {
  }

  lemma IsFinalization(mid: Db, b: Db, user: Id, at: Time)
    requires b == mid || FinalizeIfReady(mid, user, at) == Ok(b)
    ensures Finalizes(mid, b, at)
  {
  }

  lemma LeavingFinalizes(db: Db, user: Id, request: Id, at: Time)
    requires BeginAccountDeletion(db, user, request, at).Ok?
    ensures var mid := BeforeFinalize(db, LeaveAccount(user, request, at));
            Finalizes(mid, BeginAccountDeletion(db, user, request, at).value, at) && mid.users.Keys == db.users.Keys
  {
    ClosedUsers(db, user, request, at);
    BeforeLeaving(db, user, request, at);
    IsFinalization(
      CloseAccount(db, user, request, at).value, BeginAccountDeletion(db, user, request, at).value, user, at);
  }

  lemma BeforeLeaving(db: Db, user: Id, request: Id, at: Time)
    requires user in db.users && CloseAccount(db, user, request, at).Ok?
    ensures BeforeFinalize(db, LeaveAccount(user, request, at)) == CloseAccount(db, user, request, at).value
  {
  }

  lemma FinishersFinalize(db: Db, op: Op, timeout: Time, b: Db)
    requires op.FinishRemoval? || op.FinishCleanup? || op.LeaveAccount?
    requires Apply(db, op, timeout) == Ok(b)
    ensures Finalizes(BeforeFinalize(db, op), b, op.at)
    ensures BeforeFinalize(db, op).users.Keys == db.users.Keys
  {
    match op
    case FinishRemoval(event, media, at) => RemovalFinalizes(db, event, media, at);
    case FinishCleanup(claimed, at) => CleanupFinalizes(db, claimed, at);
    case LeaveAccount(user, request, at) => LeavingFinalizes(db, user, request, at);
  }

  /** No user row ever disappears except through finalization, at a moment when the
      account is closing, every asset of the user is deleted and every cleanup
      request linked to the deletion is complete; and the deletion request is
      completed in that same transaction. */
  lemma ErasureIsSafe(db: Db, op: Op, timeout: Time, b: Db, user: Id)
    requires Core(db) && Apply(db, op, timeout) == Ok(b) && user in db.users && user !in b.users
    ensures var mid := BeforeFinalize(db, op);
            && (op.FinishRemoval? || op.FinishCleanup? || op.LeaveAccount?)
            && DeletionOpen(mid, user) && user in mid.users && mid.users[user].status.Leaving?
            && Remaining(mid.files, user) == {} && RemainingCleanups(mid.rows, mid.accounts[user].id) == {}
            && user in b.accounts && b.accounts[user].completedAt == Some(op.at)
  {
    if op.FinishRemoval? || op.FinishCleanup? || op.LeaveAccount? {
      FinishersFinalize(db, op, timeout, b);
      FinalizeErases(BeforeFinalize(db, op), b, op.at, user);
    } else {
      OthersKeepUsers(db, op, timeout, b);
    }
  }

  lemma FinalizeErases(mid: Db, b: Db, at: Time, user: Id)
    requires user in mid.users && user !in b.users
    requires Finalizes(mid, b, at)
    ensures DeletionOpen(mid, user) && mid.users[user].status.Leaving?
    ensures Remaining(mid.files, user) == {} && RemainingCleanups(mid.rows, mid.accounts[user].id) == {}
    ensures user in b.accounts && b.accounts[user].completedAt == Some(at)
  {
    var u :| FinalizeIfReady(mid, u, at) == Ok(b);
    assert u == user;
  }

  /** Erasure does happen: an account without assets and tasks is erased by the
      transaction that closes it, and so it is in a state a run can reach. */
  lemma EmptyAccountIsErased(db: Db, user: Id, request: Id, at: Time)
    requires IsActive(db, user) && user !in db.accounts && request !in db.used
    requires TasksOf(db.rows, user) == {} && Remaining(db.files, user) == {}
             && RemainingCleanups(db.rows, request) == {}
    ensures BeginAccountDeletion(db, user, request, at).Ok?
    ensures user !in BeginAccountDeletion(db, user, request, at).value.users
  {
    assert Ascending({}) == [];
    var closed := CloseUser(db, user, request, at);
    assert CloseAccount(db, user, request, at) == Ok(closed.(rows := db.rows, files := db.files));
    assert RemainingCleanups(closed.rows, request) == {};
    assert FinalizeIfReady(closed, user, at) == Ok(Erase(closed, user, at));
  }

  lemma NewAccountIsEmpty(user: Id, request: Id)
    requires request != user
    ensures CreateUser(EMPTY, user, Member).Ok?
    ensures var db := CreateUser(EMPTY, user, Member).value;
            && IsActive(db, user) && user !in db.accounts && request !in db.used
            && TasksOf(db.rows, user) == {} && Remaining(db.files, user) == {}
               && RemainingCleanups(db.rows, request) == {}
  {
  }

  lemma ErasureIsReached(user: Id, request: Id, at: Time, timeout: Time)
    requires request != user
    ensures var begun := Run(EMPTY, [AddUser(user, Member)], timeout);
            var ended := Run(EMPTY, [AddUser(user, Member), LeaveAccount(user, request, at)], timeout);
            user in begun.users && user !in ended.users && user in ended.accounts
  {
    NewAccountIsEmpty(user, request);
    var one := CreateUser(EMPTY, user, Member).value;
    EmptyAccountIsErased(one, user, request, at);
    BegunAccount(one, user, request, at);
    var two := BeginAccountDeletion(one, user, request, at).value;
    TwoSteps(EMPTY, AddUser(user, Member), one, LeaveAccount(user, request, at), two, timeout);
  }

  lemma BegunAccount(db: Db, user: Id, request: Id, at: Time)
    requires BeginAccountDeletion(db, user, request, at).Ok?
    ensures user in BeginAccountDeletion(db, user, request, at).value.accounts
  {
    ClosedUsers(db, user, request, at);
  }

  lemma OneStep(db: Db, op: Op, next: Db, rest: seq<Op>, timeout: Time)
    requires Apply(db, op, timeout) == Ok(next)
    ensures Run(db, [op] + rest, timeout) == Run(next, rest, timeout)
  {
    assert ([op] + rest)[1..] == rest;
  }

  lemma TwoSteps(a: Db, first: Op, b: Db, second: Op, c: Db, timeout: Time)
    requires Apply(a, first, timeout) == Ok(b) && Apply(b, second, timeout) == Ok(c)
    ensures Run(a, [first], timeout) == b && Run(a, [first, second], timeout) == c
  {
    OneStep(a, first, b, [], timeout);
    OneStep(b, second, c, [], timeout);
    OneStep(a, first, b, [second], timeout);
    assert [first] == [first] + [] && [second] == [second] + [] && [first, second] == [first] + [second];
  }

  // ------------------------------------------------------------- erasure is complete

  /** Once a deletion is complete nothing of the user is left: no user row, no
      asset, deletion or consent, no task, hold, output or reconciliation record,
      and no request linked to the deletion. */
  lemma NothingRemains(db: Db, user: Id, t: Id)
    requires Core(db) && AccountsOk(db) && user in db.accounts && db.accounts[user].completedAt.Some?
    ensures user !in db.users && MediaOf(db.files, user) == {} && TasksOf(db.rows, user) == {}
    ensures forall m :: m in db.files.deletions ==> db.files.deletions[m].owner != user
    ensures t in db.rows ==>
              && (db.rows[t].hold.Some? ==> db.rows[t].hold.value.owner != user)
              && (db.rows[t].output.Some? ==> db.rows[t].output.value.asset.owner != user)
              && (db.rows[t].audits != [] ==> db.rows[t].task.Some? && db.rows[t].task.value.facts.owner != user)
              && !LinkedPending(db.rows[t], db.accounts[user].id)
              && (forall s :: s in db.rows[t].cleanups ==> db.rows[t].cleanups[s].account != Some(db.accounts[user].id))
  {
    assert AccountOk(db, user);
    forall m | m in db.files.media ensures db.files.media[m].owner != user {
      assert db.files.media[m].owner in db.users;
    }
    forall m | m in db.files.deletions ensures db.files.deletions[m].owner != user {
      assert db.files.media[m].owner in db.users;
    }
    if t in db.rows {
      assert RowsOk(t, db.rows[t]);
      forall s | s in db.rows[t].cleanups ensures db.rows[t].cleanups[s].account != Some(db.accounts[user].id) {
        assert LinkOk(db, db.rows[t].cleanups[s]);
      }
    }
  }

  /** A completed deletion stays exactly as it is, and its user never returns,
      whatever runs afterwards. */
  lemma ErasedOnce(db: Db, ops: seq<Op>, timeout: Time, user: Id)
    requires Core(db) && user in db.accounts && db.accounts[user].completedAt.Some? && user !in db.users
    ensures var b := Run(db, ops, timeout);
            user in b.accounts && b.accounts[user] == db.accounts[user] && user !in b.users
  {
    RunLater(db, ops, timeout);
  }

  // ----------------------------------------------------------------- nobody signs in

  /** From the moment a deletion is requested no session authenticates its user
      again, at any time, after any run that does not reactivate the account. */
  lemma ClosedNeverAuthenticates(db: Db, ops: seq<Op>, timeout: Time, token: Id, now: Time, user: Id)
    requires Core(db) && AccountsOk(db) && Disciplined(db, ops, timeout) && user in db.accounts
    ensures FindUserBySession(Run(db, ops, timeout), token, now) != Ok(user)
  {
    RunKeepsAccounts(db, ops, timeout);
    RunLater(db, ops, timeout);
    assert AccountOk(Run(db, ops, timeout), user);
  }

  /** Beginning a deletion closes the account in that very transaction: it is open
      to no session, all its assets are on their way out and all its tasks are
      revoked -- or it is erased already, having nothing to wait for. */
  lemma BeginningCloses(db: Db, user: Id, request: Id, at: Time, token: Id, now: Time)
    requires Core(db) && AccountsOk(db) && BeginAccountDeletion(db, user, request, at).Ok?
    ensures var b := BeginAccountDeletion(db, user, request, at).value;
            && user in b.accounts && FindUserBySession(b, token, now) != Ok(user)
            && (if user in b.users then Closed(b, user) && Outstanding(b, user)
                else b.accounts[user].completedAt == Some(at))
  {
    BeginAccountDeletionKeeps(db, user, request, at);
    BegunIsRecorded(db, user, request, at);
    assert AccountOk(BeginAccountDeletion(db, user, request, at).value, user);
  }

  lemma BegunIsRecorded(db: Db, user: Id, request: Id, at: Time)
    requires Core(db) && BeginAccountDeletion(db, user, request, at).Ok?
    ensures var b := BeginAccountDeletion(db, user, request, at).value;
            && user in b.accounts && b.accounts[user].id == request
            && (b.accounts[user].completedAt.Some? ==> b.accounts[user].completedAt == Some(at))
            && (b.accounts[user].completedAt.None? ==> user in b.users)
  {
    ClosedUsers(db, user, request, at);
    RecordedThen(
      CloseAccount(db, user, request, at).value, BeginAccountDeletion(db, user, request, at).value, user, at);
  }

  lemma RecordedThen(mid: Db, b: Db, user: Id, at: Time)
    requires user in mid.users && DeletionOpen(mid, user) && (b == mid || FinalizeIfReady(mid, user, at) == Ok(b))
    ensures user in b.accounts && b.accounts[user].id == mid.accounts[user].id
    ensures if b.accounts[user].completedAt.Some? then b.accounts[user].completedAt == Some(at) else user in b.users
  {
  }

  /** The other side of the hole: once a closing account has been reactivated, the
      finisher that would have erased it is refused, and with it its own write. */
  lemma ReactivatedIsNeverErased(db: Db, user: Id, at: Time)
    requires DeletionOpen(db, user) && user in db.users && !db.users[user].status.Leaving? && !Outstanding(db, user)
    ensures FinalizeIfReady(db, user, at) == Err(Authentication)
  {
  }

  // -------------------------------------------------------- requests left unlinked

  /** A request that was never linked to the deletion survives the erasure of its
      task. Claiming it then hands it out if and only if it lists no provider target
      and has an attempt left. With a provider target every claim takes it out of
      automatic retries for good, together with the object targets listed beside it;
      without one, the stale last attempt is exhausted. */
  lemma StrandedAfterErasure(id: Id, r: Rows, scope: Scope, at: Time, staleAfter: Time)
    requires RowsOk(id, r) && r.task.None? && scope in r.cleanups && ClaimTaskCleanup(r, scope, at, staleAfter).Ok?
    ensures var c, provider := ClaimTaskCleanup(r, scope, at, staleAfter).value.cleanups[scope],
                               exists u :: u in r.cleanups[scope].targets && u.ProviderTarget?;
            && c.targets == r.cleanups[scope].targets
            && (c.status.InProgress? <==> !provider && r.cleanups[scope].attempts < MAX_CLEANUP_ATTEMPTS)
            && (!c.status.InProgress? ==>
                  c.fault == Some(if provider then IdentityMismatch else AttemptsExhausted)
                  && forall now, stale :: !ReadyToClean(c, now, stale))
  {
    assert CleanupOk(id, r, scope);
    RequestMoves(r, r.cleanups[scope], at, WorkerExpired, at);
  }
}
