/** Account erasure: closing an account, finishing its deletions in any order,
    and the last finisher erasing it. */
module GenerationStoreErasure {
  import opened Base
  import opened GenerationCleanup
  import opened GenerationRows
  import opened GenerationRowsInvariant
  import opened GenerationRowsProofs
  import opened Media
  import opened GenerationStore
  import opened GenerationStoreInvariant
  import opened GenerationStoreProofs

  // ------------------------------------------------------------- erasing the rows

  predicate OwnedBy(r: Rows, user: Id) { r.task.Some? && r.task.value.facts.owner == user }

  /** Erasing one owner leaves the rows of every other task exactly as they were. */
  lemma ErasedRow(db: Db, t: Id, user: Id)
    requires Core(db) && user in db.accounts && t in db.rows
    ensures var b := EraseRows(db.rows[t], user, db.accounts[user].id);
            && RowsOk(t, b) && (if OwnedBy(db.rows[t], user) then b.task.None? else b == db.rows[t])
            && (forall s :: s in b.cleanups ==> s in db.rows[t].cleanups && b.cleanups[s] == db.rows[t].cleanups[s])
  {
    var r := db.rows[t];
    var b := EraseRows(r, user, db.accounts[user].id);
    forall s | s in r.cleanups
      ensures CleanupOk(t, r, s) && LinkOk(db, r.cleanups[s])
      ensures r.cleanups[s].account == Some(db.accounts[user].id) ==> r.cleanups[s].owner == user
    {
      assert CleanupOk(t, r, s) && LinkOk(db, r.cleanups[s]);
    }
    if OwnedBy(r, user) {
      forall s | s in b.cleanups ensures CleanupOk(t, b, s) { }
    } else {
      assert b.cleanups == r.cleanups;
    }
  }

  lemma ErasedTable(db: Db, user: Id, at: Time)
    requires Core(db) && user in db.accounts
    ensures var b := Erase(db, user, at);
            forall t :: t in b.rows ==>
              RowsOk(t, b.rows[t]) && (b.rows[t].task.Some? ==> b.rows[t] == db.rows[t] && !OwnedBy(db.rows[t], user))
  {
    var b := Erase(db, user, at);
    forall t | t in b.rows
      ensures RowsOk(t, b.rows[t]) && (b.rows[t].task.Some? ==> b.rows[t] == db.rows[t] && !OwnedBy(db.rows[t], user))
    {
      ErasedRow(db, t, user);
    }
  }

  /** Removing some tasks and leaving the others alone. */
  lemma SurvivorsKeepLineage(db: Db, b: Db)
    requires ResultsOk(db) && SameOwner(db.rows) && ModelsClosed(db.rows) && b.used == db.used
             && b.rows.Keys == db.rows.Keys
    requires forall t :: t in b.rows && b.rows[t].task.Some? ==> b.rows[t] == db.rows[t]
    ensures ResultsOk(b) && SameOwner(b.rows) && ModelsClosed(b.rows)
  {
    forall t, u | t in b.rows && u in b.rows && SameResult(b.rows[t], b.rows[u]) ensures t == u {
      assert SameResult(db.rows[t], db.rows[u]);
    }
    forall m, i | m in b.rows && i in b.rows && BuiltOn(b.rows[m], b.rows[i])
      ensures b.rows[m].task.value.facts.owner == b.rows[i].task.value.facts.owner
      ensures Revoked(b.rows[i]) ==> Revoked(b.rows[m])
    {
      assert BuiltOn(db.rows[m], db.rows[i]);
    }
  }

  lemma EraseKeepsOwned(db: Db, user: Id, at: Time)
    requires Core(db) && user in db.accounts
    ensures Owned(Erase(db, user, at))
  {
    ErasedTable(db, user, at);
  }

  lemma EraseKeepsSources(db: Db, user: Id, at: Time)
    requires Core(db) && user in db.accounts
    ensures var b := Erase(db, user, at); SourcesClosed(b.files, b.rows)
  {
    var b := Erase(db, user, at);
    ErasedTable(db, user, at);
    forall t, ref | t in b.rows && IsImage(b.rows[t]) && ref in b.rows[t].task.value.facts.references
      ensures SourceOk(b.files, b.rows[t], ref)
    {
      assert SourceOk(db.files, db.rows[t], ref);
    }
  }

  lemma EraseKeepsLinks(db: Db, user: Id, at: Time)
    requires Core(db) && user in db.accounts
    ensures LinksOk(Erase(db, user, at))
  {
    var b := Erase(db, user, at);
    forall t, s | t in b.rows && s in b.rows[t].cleanups ensures LinkOk(b, b.rows[t].cleanups[s]) {
      ErasedRow(db, t, user);
      assert LinkOk(db, db.rows[t].cleanups[s]);
    }
  }

  lemma EraseKeepsCore(db: Db, user: Id, at: Time)
    requires Core(db) && user in db.accounts
    ensures Core(Erase(db, user, at))
  {
    ErasedTable(db, user, at);
    SurvivorsKeepLineage(db, Erase(db, user, at));
    EraseKeepsOwned(db, user, at);
    EraseKeepsSources(db, user, at);
    EraseKeepsLinks(db, user, at);
    EraseKeepsFiles(db.files, user);
  }

  lemma FinalizeKeepsCore(db: Db, user: Id, at: Time)
    requires Core(db) && FinalizeIfReady(db, user, at).Ok?
    ensures Core(FinalizeIfReady(db, user, at).value)
  {
    if user in db.accounts { EraseKeepsCore(db, user, at); }
  }

  // --------------------------------------------------------------- the two finishers

  lemma FinishedAssetKeepsCore(db: Db, event: Id, media: Id, at: Time)
    requires Core(db) && FinishDeletion(db.files, event, media, at).Ok?
    ensures Core(db.(files := FinishDeletion(db.files, event, media, at).value))
  {
    FinishDeletionKeeps(db.files, event, media, at);
    FilesKeepCore(db, FinishDeletion(db.files, event, media, at).value);
  }

  lemma CompletedRowKeepsCore(db: Db, claimed: Cleanup, at: Time)
    requires Core(db) && claimed.task in db.rows && CompleteTaskCleanup(db.rows[claimed.task], claimed, at).Ok?
    ensures var r := CompleteTaskCleanup(db.rows[claimed.task], claimed, at).value;
            var b := db.(rows := db.rows[claimed.task := r]);
            Core(b) && TableStep(db.rows, b.rows, None)
  {
    var t := claimed.task;
    var r := CompleteTaskCleanup(db.rows[t], claimed, at).value;
    CompleteKeeps(t, db.rows[t], claimed, at);
    RowStepKeepsCore(db, t, r);
  }

  // ---------------------------------------------------------- closing an account

  lemma CloseAssetKeeps(f: MediaDb, id: Id, account: Id, at: Time)
    requires MediaOk(f) && id in f.media && !f.media[id].status.Deleted?
    ensures var b := CloseAsset(f, id, account, at);
            && MediaOk(b) && MediaStep(f, b) && b.media[id].status.Deleting? && b.consents == f.consents
            && (forall m :: m in f.media && m != id ==> b.media[m] == f.media[m])
  {
    assert AssetOk(f, id);
    var b := CloseAsset(f, id, account, at);
    if id in f.deletions {
      assert b.media == f.media;
      forall m | m in b.media ensures AssetOk(b, m) { assert AssetOk(f, m); }
    } else {
      RequestDeletionKeeps(f, id, Some(account), at);
    }
  }

  lemma MediaStepTransitive(a: MediaDb, b: MediaDb, c: MediaDb)
    requires MediaStep(a, b) && MediaStep(b, c)
    ensures MediaStep(a, c)
  {
    forall m | m in a.media ensures AssetStep(a.media[m], c.media[m]) {
      assert AssetStep(a.media[m], b.media[m]) && AssetStep(b.media[m], c.media[m]);
    }
  }

  /** The listed assets are being deleted; the others are as they were. */
  ghost predicate ClosesExactly(f: MediaDb, b: MediaDb, ids: seq<Id>) {
    && MediaOk(b) && MediaStep(f, b) && b.consents == f.consents
    && (forall m :: m in ids ==> m in b.media && b.media[m].status.Deleting?)
    && (forall m :: m in f.media && m !in ids ==> b.media[m] == f.media[m])
  }

  lemma {:induction false} CloseMediaKeeps(f: MediaDb, ids: seq<Id>, account: Id, at: Time)
    requires MediaOk(f) && CloseMedia(f, ids, account, at).Ok?
    requires forall i, j :: 0 <= i < j < |ids| ==> ids[i] != ids[j]
    requires forall m :: m in ids && m in f.media ==> !f.media[m].status.Deleted?
    ensures ClosesExactly(f, CloseMedia(f, ids, account, at).value, ids)
    decreases |ids|
  {
    if ids == [] {
      forall m | m in f.media ensures AssetStep(f.media[m], f.media[m]) { }
    } else {
      var g := CloseAsset(f, ids[0], account, at);
      CloseAssetKeeps(f, ids[0], account, at);
      forall m | m in ids[1..] && m in g.media ensures !g.media[m].status.Deleted? && m != ids[0] { }
      CloseMediaKeeps(g, ids[1..], account, at);
      ClosesChain(f, g, CloseMedia(f, ids, account, at).value, ids);
    }
  }

  lemma ClosesChain(f: MediaDb, g: MediaDb, b: MediaDb, ids: seq<Id>)
    requires ids != [] && MediaStep(f, g) && g.consents == f.consents && ids[0] in g.media
             && g.media[ids[0]].status.Deleting?
    requires ids[0] !in ids[1..] && (forall m :: m in f.media && m != ids[0] ==> g.media[m] == f.media[m])
    requires ClosesExactly(g, b, ids[1..])
    ensures ClosesExactly(f, b, ids)
  {
    MediaStepTransitive(f, g, b);
    forall m | m in ids ensures m in b.media && b.media[m].status.Deleting? {
      if m == ids[0] { assert AssetStep(g.media[m], b.media[m]); } else { assert m in ids[1..]; }
    }
    forall m | m in f.media && m !in ids ensures b.media[m] == f.media[m] {
      assert m != ids[0] && m !in ids[1..];
    }
  }

  /** Nothing of a user without an account deletion is linked to one. */
  lemma NothingLinkedYet(db: Db, user: Id, t: Id, account: Option<Id>)
    requires Core(db) && user !in db.accounts && t in db.rows && OwnedBy(db.rows[t], user)
    ensures LinkedTo(db.rows[t], account)
  {
    forall s | s in db.rows[t].cleanups ensures db.rows[t].cleanups[s].account in {None, account} {
      assert CleanupOk(t, db.rows[t], s) && LinkOk(db, db.rows[t].cleanups[s]);
    }
  }

  /** The tables right after closing: the owner's tasks are revoked and covered by
      linked requests, the owner's assets are being deleted, the rest is intact. */
  ghost predicate ClosedFrom(db: Db, b: Db, user: Id, request: Id) {
    && user in db.users && b.users.Keys == db.users.Keys && user in b.users && b.users[user].status.Leaving?
    && (forall u :: u in db.users && u != user ==> b.users[u] == db.users[u])
    && b.sessions == db.sessions - SessionsOf(db.sessions, user)
    && user in b.accounts && b.accounts[user].id == request && b.accounts[user].completedAt.None?
    && b.accounts == db.accounts[user := b.accounts[user]] && b.used == db.used + {request}
    && EnsuredAll(db.rows, b.rows, Ascending(TasksOf(db.rows, user)), AccountScope, Some(request))
    && ClosesExactly(db.files, b.files, Ascending(Remaining(db.files, user)))
  }

  lemma ClosedTasks(db: Db, user: Id, request: Id, at: Time)
    requires Core(db) && user !in db.accounts
    requires EnsureEach(db.rows, Ascending(TasksOf(db.rows, user)), AccountScope, Some(request), at).Ok?
    ensures var tasks := Ascending(TasksOf(db.rows, user));
            EnsuredAll(db.rows, EnsureEach(db.rows, tasks, AccountScope, Some(request), at).value, tasks, AccountScope,
                       Some(request))
  {
    var tasks := Ascending(TasksOf(db.rows, user));
    forall t | t in tasks ensures LinkedTo(db.rows[t], Some(request)) { NothingLinkedYet(db, user, t, Some(request)); }
    EnsureEachKeeps(db.rows, tasks, AccountScope, Some(request), at);
  }

  lemma ClosedTables(db: Db, user: Id, request: Id, at: Time)
    requires Core(db) && user in db.users && user !in db.accounts && CloseAccount(db, user, request, at).Ok?
    ensures ClosedFrom(db, CloseAccount(db, user, request, at).value, user, request)
  {
    CloseShape(db, user, request, at);
    ClosedTasks(db, user, request, at);
    CloseMediaKeeps(db.files, Ascending(Remaining(db.files, user)), request, at);
  }

  lemma CloseShape(db: Db, user: Id, request: Id, at: Time)
    requires user in db.users && CloseAccount(db, user, request, at).Ok?
    ensures EnsureEach(db.rows, Ascending(TasksOf(db.rows, user)), AccountScope, Some(request), at).Ok?
    ensures CloseMedia(db.files, Ascending(Remaining(db.files, user)), request, at).Ok?
    ensures CloseAccount(db, user, request, at).value
            == CloseUser(db, user, request, at).(
                 rows := EnsureEach(db.rows, Ascending(TasksOf(db.rows, user)), AccountScope, Some(request), at).value,
                 files := CloseMedia(db.files, Ascending(Remaining(db.files, user)), request, at).value)
  {
  }

  lemma ClosingLinks(db: Db, b: Db, user: Id, request: Id)
    requires Core(db) && user !in db.accounts && request !in db.used && ClosedFrom(db, b, user, request)
    ensures LinksOk(b)
  {
    forall t, s | t in b.rows && s in b.rows[t].cleanups ensures LinkOk(b, b.rows[t].cleanups[s]) {
      if t in TasksOf(db.rows, user) {
        ClosedLink(db, b, user, request, t, s);
      } else {
        assert b.rows[t] == db.rows[t];
        assert LinkOk(db, db.rows[t].cleanups[s]);
      }
    }
  }

  lemma ClosedLink(db: Db, b: Db, user: Id, request: Id, t: Id, s: Scope)
    requires Core(db) && user !in db.accounts && request !in db.used && ClosedFrom(db, b, user, request)
    requires t in TasksOf(db.rows, user) && s in b.rows[t].cleanups
    ensures LinkOk(b, b.rows[t].cleanups[s])
  {
    assert CleanupOk(t, b.rows[t], s);
    assert RowStep(db.rows[t], b.rows[t], Some(request));
    NothingLinkedYet(db, user, t, Some(request));
  }

  lemma ClosingRevokesModel(db: Db, b: Db, user: Id, request: Id, m: Id, i: Id)
    requires SameOwner(db.rows) && ClosedFrom(db, b, user, request) && m in db.rows && i in db.rows
    requires BuiltOn(b.rows[m], b.rows[i]) && Revoked(b.rows[i]) && !Revoked(db.rows[i])
    ensures Revoked(b.rows[m])
  {
    SameFacts(db.rows, b.rows, Some(request), m, i);
    SameFacts(db.rows, b.rows, Some(request), i, i);
    assert BuiltOn(db.rows[m], db.rows[i]);
    assert i in TasksOf(db.rows, user);
    assert m in TasksOf(db.rows, user);
  }

  lemma ClosingModels(db: Db, b: Db, user: Id, request: Id)
    requires Core(db) && ClosedFrom(db, b, user, request)
    ensures ModelsClosed(b.rows)
  {
    forall m, i | m in b.rows && i in b.rows && i in db.rows && BuiltOn(b.rows[m], b.rows[i])
                  && Revoked(b.rows[i]) && !Revoked(db.rows[i])
      ensures Revoked(b.rows[m])
    {
      ClosingRevokesModel(db, b, user, request, m, i);
    }
    TableKeepsModels(db.rows, b.rows, Some(request));
  }

  lemma ClosingSources(db: Db, b: Db, user: Id, request: Id)
    requires Core(db) && ClosedFrom(db, b, user, request)
    ensures SourcesClosed(b.files, b.rows)
  {
    TableKeepsSources(db.files, db.rows, b.rows, Some(request));
    forall t, ref | t in b.rows && IsImage(b.rows[t]) && ref in b.rows[t].task.value.facts.references
      ensures SourceOk(b.files, b.rows[t], ref)
    {
      assert SourceOk(db.files, b.rows[t], ref);
      assert AssetStep(db.files.media[ref.media], b.files.media[ref.media]);
      if ref.media in Remaining(db.files, user) { ClosedOwnerRevoked(db, b, user, request, t); }
    }
  }

  lemma ClosedOwnerRevoked(db: Db, b: Db, user: Id, request: Id, t: Id)
    requires ClosedFrom(db, b, user, request) && t in b.rows && OwnedBy(b.rows[t], user)
    ensures t in db.rows && OwnedBy(db.rows[t], user) && Requests(db.rows[t], b.rows[t], AccountScope, Some(request))
  {
    SameFacts(db.rows, b.rows, Some(request), t, t);
    assert RowStep(db.rows[t], b.rows[t], Some(request));
    assert t in TasksOf(db.rows, user);
  }

  lemma ClosingOwned(db: Db, b: Db, user: Id, request: Id)
    requires Core(db) && ClosedFrom(db, b, user, request)
    ensures Owned(b) && RowsAll(b)
  {
    forall t | t in b.rows && b.rows[t].task.Some? ensures b.rows[t].task.value.facts.owner in b.users {
      SameFacts(db.rows, b.rows, Some(request), t, t);
      assert RowStep(db.rows[t], b.rows[t], Some(request));
    }
    forall m | m in b.files.media ensures b.files.media[m].owner in b.users {
      assert AssetStep(db.files.media[m], b.files.media[m]);
    }
  }

  lemma ClosingKeepsCore(db: Db, b: Db, user: Id, request: Id)
    requires Core(db) && user !in db.accounts && request !in db.used && ClosedFrom(db, b, user, request)
    ensures Core(b)
  {
    ClosingOwned(db, b, user, request);
    ClosingLinks(db, b, user, request);
    ClosingModels(db, b, user, request);
    ClosingSources(db, b, user, request);
    TableKeepsResults(db, b, Some(request));
  }
}
