/** What holds of every account deletion in every reachable state: while it is
    pending the account is closed and something of it is still to be finished;
    once complete the user is gone. */
module GenerationStoreAccounts {
  import opened Base
  import opened GenerationCleanup
  import opened GenerationRows
  import opened GenerationRowsInvariant
  import opened GenerationRowsProofs
  import opened Media
  import opened GenerationStore
  import opened GenerationStoreInvariant
  import opened GenerationStoreProofs
  import opened GenerationStoreErasure

  predicate DeletionOpen(db: Db, u: Id) { u in db.accounts && db.accounts[u].completedAt.None? }

  /** The account is closed: no way in, no asset readable, no task uncovered. */
  ghost predicate Closed(db: Db, u: Id)
    requires u in db.accounts
  {
    && u in db.users && db.users[u].status.Leaving?
    && (forall m :: m in MediaOf(db.files, u) ==> Gone(db.files.media[m].status))
    && (forall t :: t in TasksOf(db.rows, u) ==>
          && Revoked(db.rows[t]) && AccountScope in db.rows[t].cleanups
          && db.rows[t].cleanups[AccountScope].account == Some(db.accounts[u].id))
  }

  /** Some asset is not deleted, or some linked request is not complete. */
  predicate Outstanding(db: Db, u: Id)
    requires u in db.accounts
  {
    Remaining(db.files, u) != {} || RemainingCleanups(db.rows, db.accounts[u].id) != {}
  }

  ghost predicate AccountOk(db: Db, u: Id)
    requires u in db.accounts
  {
    if db.accounts[u].completedAt.Some? then u !in db.users else Closed(db, u) && Outstanding(db, u)
  }

  ghost predicate AccountsOk(db: Db) { forall u :: u in db.accounts ==> AccountOk(db, u) }

  // -------------------------------------------------- changes that finish nothing

  ghost predicate SameAssets(a: MediaDb, b: MediaDb, u: Id) {
    && MediaOf(a, u) == MediaOf(b, u)
    && (forall m :: m in MediaOf(a, u) ==>
          && Gone(b.media[m].status) == Gone(a.media[m].status)
          && b.media[m].status.Deleted? == a.media[m].status.Deleted?)
  }

  ghost predicate SameTasks(a: map<Id, Rows>, b: map<Id, Rows>, u: Id) {
    && TasksOf(b, u) <= TasksOf(a, u)
    && (forall t :: t in a ==> t in b && Steps(a[t], b[t]) && Uncompleted(a[t], b[t]))
  }

  lemma StillCovered(a: Rows, b: Rows, account: Id)
    requires Steps(a, b) && Revoked(a) && AccountScope in a.cleanups
             && a.cleanups[AccountScope].account == Some(account)
    ensures Revoked(b) && AccountScope in b.cleanups && b.cleanups[AccountScope].account == Some(account)
  {
  }

  lemma StillPending(a: Rows, b: Rows, account: Id)
    requires Steps(a, b) && Uncompleted(a, b) && LinkedPending(a, account)
    ensures LinkedPending(b, account)
  {
    var s :| s in a.cleanups && a.cleanups[s].account == Some(account) && !a.cleanups[s].status.Complete?;
    assert s in b.cleanups && b.cleanups[s].account == Some(account);
  }

  lemma StillClosed(db: Db, b: Db, u: Id)
    requires u in db.accounts && u in b.accounts && b.accounts[u] == db.accounts[u] && Closed(db, u)
    requires u in b.users && b.users[u].status.Leaving?
    requires MediaOf(b.files, u) <= MediaOf(db.files, u)
    requires forall m :: m in MediaOf(b.files, u) ==> (Gone(db.files.media[m].status) ==> Gone(b.files.media[m].status))
    requires TasksOf(b.rows, u) <= TasksOf(db.rows, u)
    requires forall t :: t in TasksOf(b.rows, u) ==> Steps(db.rows[t], b.rows[t])
    ensures Closed(b, u)
  {
    forall t | t in TasksOf(b.rows, u)
      ensures Revoked(b.rows[t]) && AccountScope in b.rows[t].cleanups
              && b.rows[t].cleanups[AccountScope].account == Some(b.accounts[u].id)
    {
      StillCovered(db.rows[t], b.rows[t], db.accounts[u].id);
    }
  }

  lemma StillOutstanding(db: Db, b: Db, u: Id)
    requires u in db.accounts && u in b.accounts && b.accounts[u] == db.accounts[u] && Outstanding(db, u)
    requires SameAssets(db.files, b.files, u) && SameTasks(db.rows, b.rows, u)
    ensures Outstanding(b, u)
  {
    if Remaining(db.files, u) != {} {
      var m :| m in Remaining(db.files, u);
      assert m in MediaOf(db.files, u) && m in MediaOf(b.files, u);
      assert m in Remaining(b.files, u);
    } else {
      var t :| t in RemainingCleanups(db.rows, db.accounts[u].id);
      StillPending(db.rows[t], b.rows[t], db.accounts[u].id);
      assert t in RemainingCleanups(b.rows, b.accounts[u].id);
    }
  }

  /** A transaction that finishes nothing of the closed accounts. */
  ghost predicate Idle(db: Db, b: Db) {
    && b.accounts == db.accounts
    && (forall u :: u in db.accounts ==> (u in b.users <==> u in db.users))
    && (forall u :: DeletionOpen(db, u) && u in db.users ==>
          && b.users[u].status == db.users[u].status
          && SameAssets(db.files, b.files, u) && SameTasks(db.rows, b.rows, u))
  }

  lemma IdleKeepsAccounts(db: Db, b: Db)
    requires AccountsOk(db) && Idle(db, b)
    ensures AccountsOk(b)
  {
    forall u | u in b.accounts ensures AccountOk(b, u) {
      assert AccountOk(db, u);
      if DeletionOpen(db, u) {
        StillClosed(db, b, u);
        StillOutstanding(db, b, u);
      }
    }
  }

  lemma StepsTasks(a: map<Id, Rows>, b: map<Id, Rows>, u: Id)
    requires a.Keys == b.Keys && (forall t :: t in a ==> Steps(a[t], b[t])) && Untouched(a, b)
    ensures SameTasks(a, b, u)
  {
    forall t | t in TasksOf(b, u) ensures t in TasksOf(a, u) { assert Steps(a[t], b[t]); }
    forall t | t in a ensures t in b && Steps(a[t], b[t]) && Uncompleted(a[t], b[t]) { }
  }

  lemma TableTasks(a: map<Id, Rows>, b: map<Id, Rows>, account: Option<Id>, u: Id)
    requires TableStep(a, b, account) && Untouched(a, b)
    ensures SameTasks(a, b, u)
  {
    forall t | t in a ensures Steps(a[t], b[t]) { assert RowStep(a[t], b[t], account); }
    StepsTasks(a, b, u);
  }

  lemma SameRowsTasks(db: Db, u: Id)
    requires Core(db)
    ensures SameTasks(db.rows, db.rows, u)
  {
    TableStepReflexive(db.rows, None);
    TableTasks(db.rows, db.rows, None, u);
  }

  // ----------------------------------------------------------------- the finishers

  /** Everything but `u` is as it was; `u` is closed and may have nothing left. */
  lemma FinalizeKeepsAccounts(db: Db, u: Id, at: Time)
    requires Core(db) && FinalizeIfReady(db, u, at).Ok?
    requires forall v :: v in db.accounts && v != u ==> AccountOk(db, v)
    requires u in db.accounts ==> if DeletionOpen(db, u) then Closed(db, u) else u !in db.users
    ensures AccountsOk(FinalizeIfReady(db, u, at).value)
  {
    var b := FinalizeIfReady(db, u, at).value;
    if DeletionOpen(db, u) && !Outstanding(db, u) {
      forall v | v in b.accounts ensures AccountOk(b, v) {
        if v != u { EraseKeepsOthers(db, u, at, v); }
      }
    }
  }

  /** Erasing one account neither opens nor finishes another. */
  lemma EraseKeepsOthers(db: Db, u: Id, at: Time, v: Id)
    requires Core(db) && u in db.accounts && v in db.accounts && v != u && AccountOk(db, v)
    ensures AccountOk(Erase(db, u, at), v)
  {
    var b := Erase(db, u, at);
    if DeletionOpen(db, v) {
      forall t | t in TasksOf(b.rows, v) ensures t in TasksOf(db.rows, v) && b.rows[t] == db.rows[t] {
        ErasedRow(db, t, u);
      }
      if Remaining(db.files, v) != {} {
        var m :| m in Remaining(db.files, v);
        assert m in Remaining(b.files, v);
      } else {
        var t :| t in RemainingCleanups(db.rows, db.accounts[v].id);
        LinkSurvives(db, u, at, v, t);
      }
    }
  }

  lemma LinkSurvives(db: Db, u: Id, at: Time, v: Id, t: Id)
    requires Core(db) && u in db.accounts && v in db.accounts && v != u
             && t in RemainingCleanups(db.rows, db.accounts[v].id)
    ensures t in RemainingCleanups(Erase(db, u, at).rows, db.accounts[v].id)
  {
    var b := Erase(db, u, at);
    var s :| s in db.rows[t].cleanups && db.rows[t].cleanups[s].account == Some(db.accounts[v].id)
             && !db.rows[t].cleanups[s].status.Complete?;
    assert LinkOk(db, db.rows[t].cleanups[s]) && CleanupOk(t, db.rows[t], s);
    assert s in b.rows[t].cleanups && b.rows[t].cleanups[s] == db.rows[t].cleanups[s];
  }

  /** Finishing an asset of `u` leaves every other account as it was. */
  lemma FinishedAssetOthers(db: Db, event: Id, media: Id, at: Time, v: Id)
    requires Core(db) && FinishDeletion(db.files, event, media, at).Ok? && v in db.accounts && AccountOk(db, v)
    requires db.files.media[media].owner != v
    ensures AccountOk(db.(files := FinishDeletion(db.files, event, media, at).value), v)
  {
    var b := db.(files := FinishDeletion(db.files, event, media, at).value);
    if DeletionOpen(db, v) {
      SameRowsTasks(db, v);
      StillClosed(db, b, v);
      StillOutstanding(db, b, v);
    }
  }

  lemma FinishedAssetCloses(db: Db, event: Id, media: Id, at: Time, u: Id)
    requires Core(db) && FinishDeletion(db.files, event, media, at).Ok? && DeletionOpen(db, u) && Closed(db, u)
    ensures Closed(db.(files := FinishDeletion(db.files, event, media, at).value), u)
  {
    SameRowsTasks(db, u);
    StillClosed(db, db.(files := FinishDeletion(db.files, event, media, at).value), u);
  }

  lemma CompleteDeletionKeeps(db: Db, event: Id, media: Id, at: Time)
    requires Core(db) && CompleteDeletion(db, event, media, at).Ok?
    ensures var b := CompleteDeletion(db, event, media, at).value; Core(b) && (AccountsOk(db) ==> AccountsOk(b))
  {
    if (event, MediaDelete) !in db.files.receipts {
      var files := FinishDeletion(db.files, event, media, at).value;
      var b := db.(files := files);
      var u := files.media[media].owner;
      FinishedAssetKeepsCore(db, event, media, at);
      FinalizeKeepsCore(b, u, at);
      if AccountsOk(db) {
        FinishedAccounts(db, event, media, at);
        FinalizeKeepsAccounts(b, u, at);
      }
    }
  }

  lemma FinishedAccounts(db: Db, event: Id, media: Id, at: Time)
    requires Core(db) && AccountsOk(db) && FinishDeletion(db.files, event, media, at).Ok?
    ensures var b, u := db.(files := FinishDeletion(db.files, event, media, at).value), db.files.media[media].owner;
            && (forall v :: v in b.accounts && v != u ==> AccountOk(b, v))
            && (u in b.accounts ==> if DeletionOpen(b, u) then Closed(b, u) else u !in b.users)
  {
    var b, u := db.(files := FinishDeletion(db.files, event, media, at).value), db.files.media[media].owner;
    assert u in db.accounts ==> AccountOk(db, u);
    forall v | v in b.accounts && v != u ensures AccountOk(b, v) { FinishedAssetOthers(db, event, media, at, v); }
    if DeletionOpen(db, u) { FinishedAssetCloses(db, event, media, at, u); }
  }

  /** One request of one task moved; its account link did not. */
  ghost predicate OneRequestMoved(a: Rows, b: Rows, scope: Scope) {
    && scope in a.cleanups && scope in b.cleanups && RowStep(a, b, None)
    && b.cleanups == a.cleanups[scope := b.cleanups[scope]] && b.cleanups[scope].account == a.cleanups[scope].account
  }

  lemma CompletedElsewhere(a: Rows, b: Rows, scope: Scope, account: Id)
    requires LinkedPending(a, account) && OneRequestMoved(a, b, scope) && b.cleanups[scope].account != Some(account)
    ensures LinkedPending(b, account)
  {
    var s :| s in a.cleanups && a.cleanups[s].account == Some(account) && !a.cleanups[s].status.Complete?;
    assert s in b.cleanups;
  }

  lemma ReplacedSteps(db: Db, task: Id, r: Rows)
    requires Core(db) && task in db.rows && RowStep(db.rows[task], r, None)
    ensures forall t :: t in db.rows ==> Steps(db.rows[t], db.rows[task := r][t])
  {
    forall t | t in db.rows ensures Steps(db.rows[t], db.rows[task := r][t]) { StepsReflexive(t, db.rows[t]); }
  }

  lemma ReplacedClosed(db: Db, task: Id, r: Rows, v: Id)
    requires Core(db) && task in db.rows && RowStep(db.rows[task], r, None) && v in db.accounts && Closed(db, v)
    ensures Closed(db.(rows := db.rows[task := r]), v)
  {
    ReplacedSteps(db, task, r);
    StillClosed(db, db.(rows := db.rows[task := r]), v);
  }

  lemma CompletedLeavesOutstanding(db: Db, task: Id, r: Rows, scope: Scope, v: Id)
    requires v in db.accounts && Outstanding(db, v) && task in db.rows
    requires OneRequestMoved(db.rows[task], r, scope) && r.cleanups[scope].account != Some(db.accounts[v].id)
    ensures Outstanding(db.(rows := db.rows[task := r]), v)
  {
    if Remaining(db.files, v) == {} {
      var t :| t in RemainingCleanups(db.rows, db.accounts[v].id);
      if t == task { CompletedElsewhere(db.rows[t], r, scope, db.accounts[v].id); }
      assert t in RemainingCleanups(db.rows[task := r], db.accounts[v].id);
    }
  }

  /** Completing a request of one account, or of none, finishes nothing of another. */
  lemma CompletedOthers(db: Db, task: Id, r: Rows, scope: Scope, v: Id)
    requires Core(db) && v in db.accounts && AccountOk(db, v) && task in db.rows
    requires OneRequestMoved(db.rows[task], r, scope) && r.cleanups[scope].account != Some(db.accounts[v].id)
    ensures AccountOk(db.(rows := db.rows[task := r]), v)
  {
    if DeletionOpen(db, v) {
      ReplacedClosed(db, task, r, v);
      CompletedLeavesOutstanding(db, task, r, scope, v);
    }
  }

  lemma CompletedKeepsOthers(db: Db, task: Id, r: Rows, scope: Scope)
    requires Core(db) && AccountsOk(db) && task in db.rows && OneRequestMoved(db.rows[task], r, scope)
    requires Core(db.(rows := db.rows[task := r]))
    ensures var b, c := db.(rows := db.rows[task := r]), r.cleanups[scope];
            if c.account.None? then AccountsOk(b)
            else DeletionOpen(b, c.owner) && Closed(b, c.owner) && forall v :: v in b.accounts && v != c.owner ==>
              AccountOk(b, v)
  {
    var b, c := db.(rows := db.rows[task := r]), r.cleanups[scope];
    assert LinkOk(b, c);
    forall v | v in b.accounts && (c.account.Some? ==> v != c.owner) ensures AccountOk(b, v) {
      CompletedOthers(db, task, r, scope, v);
    }
    if c.account.Some? {
      assert AccountOk(db, c.owner);
      ReplacedClosed(db, task, r, c.owner);
    }
  }

  lemma CompleteCleanupKeeps(db: Db, claimed: Cleanup, at: Time)
    requires Core(db) && CompleteCleanup(db, claimed, at).Ok?
    ensures var b := CompleteCleanup(db, claimed, at).value; Core(b) && (AccountsOk(db) ==> AccountsOk(b))
  {
    var t, scope := claimed.task, claimed.scope;
    var r := CompleteTaskCleanup(db.rows[t], claimed, at).value;
    CompletedRowKeepsCore(db, claimed, at);
    CompleteKeeps(t, db.rows[t], claimed, at);
    var b := db.(rows := db.rows[t := r]);
    assert RowStep(db.rows[t], r, None);
    if AccountsOk(db) { CompletedKeepsOthers(db, t, r, scope); }
    if r.cleanups[scope].account.Some? {
      FinalizeKeepsCore(b, r.cleanups[scope].owner, at);
      if AccountsOk(db) { FinalizeKeepsAccounts(b, r.cleanups[scope].owner, at); }
    }
  }

  // -------------------------------------------------------------- closing an account

  /** The leaving user's account is closed. */
  lemma ClosingCloses(db: Db, b: Db, user: Id, request: Id)
    requires Core(db) && user !in db.accounts && ClosedFrom(db, b, user, request)
    ensures Closed(b, user)
  {
    forall t | t in TasksOf(b.rows, user)
      ensures Revoked(b.rows[t]) && AccountScope in b.rows[t].cleanups
              && b.rows[t].cleanups[AccountScope].account == Some(request)
    {
      ClosedOwnerRevoked(db, b, user, request, t);
      NoAccountScopeYet(db, user, t);
    }
    forall m | m in MediaOf(b.files, user) ensures Gone(b.files.media[m].status) {
      assert AssetStep(db.files.media[m], b.files.media[m]);
      if m in Remaining(db.files, user) { } else { assert b.files.media[m] == db.files.media[m]; }
    }
  }

  lemma NoAccountScopeYet(db: Db, user: Id, t: Id)
    requires Core(db) && user !in db.accounts && t in TasksOf(db.rows, user)
    ensures AccountScope !in db.rows[t].cleanups
  {
    forall s | s in db.rows[t].cleanups ensures CleanupOk(t, db.rows[t], s) && LinkOk(db, db.rows[t].cleanups[s]) {
      assert CleanupOk(t, db.rows[t], s) && LinkOk(db, db.rows[t].cleanups[s]);
    }
  }

  lemma ClosingOthers(db: Db, b: Db, user: Id, request: Id, v: Id)
    requires Core(db) && user !in db.accounts && ClosedFrom(db, b, user, request) && v in db.accounts
             && AccountOk(db, v)
    ensures AccountOk(b, v)
  {
    if DeletionOpen(db, v) {
      TableTasks(db.rows, b.rows, Some(request), v);
      forall m | m in MediaOf(db.files, v) ensures m in MediaOf(b.files, v) && b.files.media[m] == db.files.media[m] { }
      forall m | m in MediaOf(b.files, v) ensures m in MediaOf(db.files, v) {
        assert AssetStep(db.files.media[m], b.files.media[m]);
      }
      StillClosed(db, b, v);
      StillOutstanding(db, b, v);
    }
  }

  lemma BeginAccountDeletionKeeps(db: Db, user: Id, request: Id, at: Time)
    requires Core(db) && BeginAccountDeletion(db, user, request, at).Ok?
    ensures var b := BeginAccountDeletion(db, user, request, at).value; Core(b) && (AccountsOk(db) ==> AccountsOk(b))
  {
    var b := CloseAccount(db, user, request, at).value;
    ClosedTables(db, user, request, at);
    BegunKeeps(db, b, user, request, at);
  }

  lemma BegunKeeps(db: Db, b: Db, user: Id, request: Id, at: Time)
    requires Core(db) && user !in db.accounts && request !in db.used && ClosedFrom(db, b, user, request)
    ensures Remaining(db.files, user) != {} ==> Core(b) && (AccountsOk(db) ==> AccountsOk(b))
    ensures FinalizeIfReady(b, user, at).Ok? ==>
              var d := FinalizeIfReady(b, user, at).value; Core(d) && (AccountsOk(db) ==> AccountsOk(d))
  {
    ClosingKeepsCore(db, b, user, request);
    if Remaining(db.files, user) != {} { ClosingOutstanding(db, b, user, request); }
    if AccountsOk(db) { BegunAccounts(db, b, user, request); }
    if FinalizeIfReady(b, user, at).Ok? {
      FinalizeKeepsCore(b, user, at);
      if AccountsOk(db) { FinalizeKeepsAccounts(b, user, at); }
    }
  }

  lemma ClosingOutstanding(db: Db, b: Db, user: Id, request: Id)
    requires ClosedFrom(db, b, user, request) && Remaining(db.files, user) != {}
    ensures Outstanding(b, user)
  {
    var m :| m in Remaining(db.files, user);
    assert AssetStep(db.files.media[m], b.files.media[m]);
    assert m in Remaining(b.files, user);
  }

  lemma BegunAccounts(db: Db, b: Db, user: Id, request: Id)
    requires Core(db) && AccountsOk(db) && user !in db.accounts && ClosedFrom(db, b, user, request)
    ensures DeletionOpen(b, user) && Closed(b, user) && forall v :: v in b.accounts && v != user ==> AccountOk(b, v)
  {
    ClosingCloses(db, b, user, request);
    forall v | v in b.accounts && v != user ensures AccountOk(b, v) { ClosingOthers(db, b, user, request, v); }
  }
}
