/** The repository methods that work step by step on the tables. Each public
    method is one transaction: it writes row after row and, when any step refuses,
    puts every table back. Its contract is the transaction function of
    GenerationStore, so everything proved there about runs holds of it. */
module GenerationRepository {
  import opened Base
  import opened GenerationTask
  import opened GenerationCleanup
  import opened GenerationRows
  import opened Media
  import opened GenerationStore

  class Repository {
    var users: map<Id, User>
    var sessions: map<Id, Session>
    var accounts: map<Id, AccountDeletion>
    var files: MediaDb
    var rows: map<Id, Rows>
    var used: set<Id>

    function View(): Db
      reads this
    {
      Db(users, sessions, accounts, files, rows, used)
    }

    constructor ()
      ensures View() == EMPTY
    {
      users, sessions, accounts, rows, used := map[], map[], map[], map[], {};
      files := MediaDb(map[], map[], map[], {});
    }

    method Rollback(db: Db)
      modifies this
      ensures View() == db
    {
      users, sessions, accounts, files, rows, used := db.users, db.sessions, db.accounts, db.files, db.rows, db.used;
    }

    /** The state after a transaction, and the error it reports if it was rolled back. */
    ghost predicate Committed(before: Db, result: Result<Db, Error>, e: Option<Error>)
      reads this
    {
      match result
      case Ok(db) => e.None? && View() == db
      case Err(error) => e == Some(error) && View() == before
    }

    /** The rows after a step inside a transaction; after a refusal they may hold
        anything, since the transaction is about to be rolled back. */
    ghost predicate Wrote(result: Result<map<Id, Rows>, Error>, e: Option<Error>)
      reads this
    {
      match result
      case Ok(written) => e.None? && rows == written
      case Err(error) => e == Some(error)
    }

    // ------------------------------------------------------------- row by row

    /** UPDATE ... WHERE status_revision = previous [AND fencing_token = token]. */
    method UpdateTaskRow(id: Id, t: Task, previous: nat, token: Option<nat>) returns (affected: nat)
      modifies this`rows
      ensures affected <= 1
      ensures affected == 1 <==>
                && id in old(rows) && old(rows)[id].task.Some? && old(rows)[id].task.value.revision == previous
                && (token.Some? ==> old(rows)[id].task.value.fencing == token.value)
      ensures rows == if affected == 1 then old(rows)[id := old(rows)[id].(task := Some(t))] else old(rows)
    {
      affected := 0;
      if id in rows && rows[id].task.Some? {
        var stored := rows[id].task.value;
        if stored.revision == previous && (token.None? || stored.fencing == token.value) {
          rows := rows[id := rows[id].(task := Some(t))];
          affected := 1;
        }
      }
    }

    /** Closes the hold, writes or forbids the output, then the fenced task row. */
    method PersistSettlementRows(id: Id, previous: nat, hold: Option<Reservation>, s: Settlement)
      returns (e: Option<Error>)
      requires id in rows
      modifies this`rows
      ensures Wrote(match PersistSettlement(old(rows)[id], previous, hold, s)
                    case Ok(r) => Ok(old(rows)[id := r])
                    case Err(error) => Err(error), e)
    {
      if s.reservation.None? && hold.Some? { return Some(SettlementConflict); }
      if s.reservation.Some? {
        if hold.None? || s.reservation.value.task != s.task.facts.id { return Some(SettlementConflict); }
        if rows[id].hold.None? || rows[id].hold.value.revision != hold.value.revision {
          return Some(SettlementConflict);
        }
        rows := rows[id := rows[id].(hold := s.reservation)];
      }
      if s.asset.Some? {
        if !ValidAsset(s.task, s.asset.value) { return Some(InvalidSettlement); }
        if s.reused {
          if rows[id].output.None? || rows[id].output.value.asset != s.asset.value { return Some(SettlementConflict); }
        } else {
          if rows[id].output.Some? { return Some(SettlementConflict); }
          rows := rows[id := rows[id].(output := Some(Output(s.asset.value, None)))];
        }
      } else if rows[id].output.Some? {
        return Some(SettlementConflict);
      }
      var affected := UpdateTaskRow(id, s.task, previous, Some(s.token));
      e := if affected == 1 then None else Some(LeaseConflict);
    }

    /** Links a pending unpublished-output request to the account deletion. */
    method AttachOrphanRow(id: Id, account: Id, at: Time)
      requires id in rows
      modifies this`rows
      ensures Wrote(match AttachOrphan(old(rows)[id], account, at)
                    case Ok(r) => Ok(old(rows)[id := r])
                    case Err(error) => Err(error), None)
    {
      var r := rows[id];
      if OrphanScope in r.cleanups && r.cleanups[OrphanScope].account != Some(account) {
        var c := r.cleanups[OrphanScope];
        c := c.(account := Some(account), updatedAt := Max(at, c.updatedAt));
        rows := rows[id := r.(cleanups := r.cleanups[OrphanScope := c])];
      }
      assert rows == old(rows)[id := rows[id]];
    }

    /** Settles a task that was never submitted, saves the canceled row otherwise. */
    method SaveClosingRow(id: Id, t: Task, closing: Task, moment: Time) returns (e: Option<Error>)
      requires id in rows
      modifies this`rows
      ensures Wrote(match SaveClosing(old(rows)[id], t, closing, moment)
                    case Ok(r) => Ok(old(rows)[id := r])
                    case Err(error) => Err(error), e)
    {
      e := None;
      if closing.revision == t.revision {
        assert rows == old(rows)[id := rows[id]];
      } else if Unsubmitted(closing) {
        var s := FinalizeWithoutOutput(closing, rows[id].hold, Canceled, None, moment);
        if s.Err? { return Some(s.error); }
        if s.value.token != closing.fencing { return Some(SettlementConflict); }
        e := PersistSettlementRows(id, t.revision, rows[id].hold, s.value);
      } else {
        var affected := UpdateTaskRow(id, closing, t.revision, None);
        if affected != 1 { return Some(LeaseConflict); }
      }
    }

    /** Revokes, cancels and if possible settles the task, then inserts the request. */
    method AddRequestRow(id: Id, t: Task, scope: Scope, source: Option<Id>, account: Option<Id>, moment: Time)
      returns (e: Option<Error>)
      requires id in rows
      modifies this`rows
      ensures Wrote(match AddRequest(old(rows)[id], t, scope, source, account, moment)
                    case Ok(r) => Ok(old(rows)[id := r])
                    case Err(error) => Err(error), e)
    {
      var closing := Closing(t, moment);
      if closing.Err? { return Some(closing.error); }
      e := SaveClosingRow(id, t, closing.value, moment);
      if e.Some? { return; }
      var request := MakeRequest(rows[id], scope, source, account, moment);
      if request.Err? { return Some(request.error); }
      rows := rows[id := rows[id].(cleanups := rows[id].cleanups[scope := request.value])];
    }

    method EnsureCleanupRow(id: Id, scope: Scope, source: Option<Id>, account: Option<Id>, at: Time)
      returns (e: Option<Error>)
      requires id in rows
      modifies this`rows
      ensures Wrote(match EnsureCleanup(old(rows)[id], scope, source, account, at)
                    case Ok(r) => Ok(old(rows)[id := r])
                    case Err(error) => Err(error), e)
    {
      e := None;
      var linked := scope.AccountScope? && account.Some?;
      if scope in rows[id].cleanups {
        if !ValidCleanup(rows[id].cleanups[scope]) { return Some(InvalidCleanup); }
        if linked { AttachOrphanRow(id, account.value, at); }
        assert rows == old(rows)[id := rows[id]];
      } else {
        e := CreateCleanupRow(id, scope, source, account, at);
      }
    }

    method CreateCleanupRow(id: Id, scope: Scope, source: Option<Id>, account: Option<Id>, at: Time)
      returns (e: Option<Error>)
      requires id in rows && scope !in rows[id].cleanups
      modifies this`rows
      ensures Wrote(match EnsureCleanup(old(rows)[id], scope, source, account, at)
                    case Ok(r) => Ok(old(rows)[id := r])
                    case Err(error) => Err(error), e)
    {
      var t := Load(rows[id]);
      if t.Err? { return Some(t.error); }
      var moment := Max(at, t.value.updatedAt);
      e := AddRequestRow(id, t.value, scope, source, account, moment);
      if e.None? && scope.AccountScope? && account.Some? { AttachOrphanRow(id, account.value, moment); }
    }

    // ------------------------------------------------------------------ cascades

    /** One request per listed task, in ascending order, reading each row anew. */
    method EnsureEachRow(ids: seq<Id>, scope: Scope, account: Option<Id>, at: Time) returns (e: Option<Error>)
      modifies this`rows
      ensures Wrote(EnsureEach(old(rows), ids, scope, account, at), e)
    {
      var i := 0;
      while i < |ids|
        invariant 0 <= i <= |ids|
        invariant EnsureEach(old(rows), ids, scope, account, at) == EnsureEach(rows, ids[i..], scope, account, at)
      {
        if ids[i] !in rows { return Some(NotFound); }
        e := EnsureCleanupRow(ids[i], scope, None, account, at);
        if e.Some? { return; }
        i := i + 1;
      }
      e := None;
    }

    method EnsureDependentRows(t: Task, at: Time) returns (e: Option<Error>)
      modifies this`rows
      ensures Wrote(EnsureDependents(old(rows), t, at), e)
    {
      if !t.facts.purpose.Image? || t.result.None? { return None; }
      e := EnsureEachRow(Ascending(ModelsOf(rows, t.facts.owner, t.result.value)), TaskScope, None, at);
    }

    method EnsureSourceRows(ids: seq<Id>, media: set<Id>, at: Time) returns (e: Option<Error>)
      modifies this`rows
      ensures Wrote(EnsureSources(old(rows), ids, media, at), e)
    {
      var i := 0;
      while i < |ids|
        invariant 0 <= i <= |ids|
        invariant EnsureSources(old(rows), ids, media, at) == EnsureSources(rows, ids[i..], media, at)
      {
        if ids[i] !in rows { return Some(NotFound); }
        var t := Load(rows[ids[i]]);
        if t.Err? { return Some(t.error); }
        var source := FirstReference(t.value.facts.references, media);
        e := EnsureCleanupRow(ids[i], SourceScope, source, None, at);
        if e.Some? { return; }
        e := EnsureDependentRows(t.value, at);
        if e.Some? { return; }
        i := i + 1;
      }
      e := None;
    }

    /** The asset row, then its deletion request. */
    method RequestDeletionRows(id: Id, account: Option<Id>, at: Time)
      requires id in files.media
      modifies this`files
      ensures files == RequestDeletion(old(files), id, account, at)
    {
      var asset := files.media[id];
      files := files.(media := files.media[id := asset.(status := Deleting, updatedAt := at)]);
      files := files.(deletions := files.deletions[id := Deletion(asset.owner, account, DeletionPending, 0, None)]);
    }

    /** Puts every listed asset of a closing account on its way out. */
    method CloseMediaRows(ids: seq<Id>, account: Id, at: Time) returns (e: Option<Error>)
      modifies this`files
      ensures match CloseMedia(old(files), ids, account, at)
              case Ok(written) => e.None? && files == written
              case Err(error) => e == Some(error)
    {
      var i := 0;
      while i < |ids|
        invariant 0 <= i <= |ids|
        invariant CloseMedia(old(files), ids, account, at) == CloseMedia(files, ids[i..], account, at)
      {
        var id := ids[i];
        if id !in files.media { return Some(Unavailable); }
        var asset := files.media[id];
        if id in files.deletions {
          if files.deletions[id].owner != asset.owner { return Some(Unavailable); }
          files := files.(deletions := files.deletions[id := files.deletions[id].(account := Some(account))]);
          if !asset.status.Deleting? {
            files := files.(media := files.media[id := asset.(status := Deleting, updatedAt := at)]);
          }
        } else {
          RequestDeletionRows(id, Some(account), at);
        }
        i := i + 1;
      }
      e := None;
    }

    // -------------------------------------------------------------- finalization

    /** Counts what remains, then deletes table by table and completes the request. */
    method FinalizeAccountDeletionIfReady(user: Id, at: Time) returns (e: Option<Error>)
      modifies this
      ensures match FinalizeIfReady(old(View()), user, at)
              case Ok(db) => e.None? && View() == db
              case Err(error) => e == Some(error)
    {
      if user !in accounts || accounts[user].completedAt.Some? { return None; }
      var request := accounts[user];
      if |Remaining(files, user)| != 0 { return None; }
      if |RemainingCleanups(rows, request.id)| != 0 { return None; }
      rows := map t | t in rows :: EraseRows(rows[t], user, request.id);
      if user !in users || !users[user].status.Leaving? { return Some(Authentication); }
      users := users - {user};
      sessions := sessions - SessionsOf(sessions, user);
      files := EraseFiles(files, user);
      accounts := accounts[user := request.(completedAt := Some(at))];
      e := None;
    }

    // -------------------------------------------------------------- transactions

    method RequestTaskCleanup(owner: Id, task: Id, at: Time) returns (e: Option<Error>)
      modifies this
      ensures Committed(old(View()), GenerationStore.RequestTaskCleanup(old(View()), owner, task, at), e)
    {
      var before := View();
      if task !in rows { return Some(NotFound); }
      var t := Load(rows[task]);
      if t.Err? { return Some(t.error); }
      if t.value.facts.owner != owner { return Some(NotFound); }
      e := EnsureCleanupRow(task, TaskScope, None, None, at);
      if e.None? { e := EnsureDependentRows(t.value, at); }
      if e.Some? { Rollback(before); }
    }

    method DeleteMedia(owner: Id, media: Id, blocked: bool, at: Time) returns (e: Option<Error>)
      modifies this
      ensures Committed(old(View()), GenerationStore.DeleteMedia(old(View()), owner, media, blocked, at), e)
    {
      var before := View();
      if !IsActive(View(), owner) || media !in files.media || files.media[media].owner != owner {
        return Some(NotFound);
      }
      if media in files.deletions { return None; }
      if files.media[media].status.Deleted? { return Some(MediaConflict); }
      e := EnsureSourceRows(Ascending(SourceTasks(rows, owner, {media})), {media}, at);
      if e.None? && blocked { e := Some(MediaConflict); }
      if e.Some? {
        Rollback(before);
      } else {
        RequestDeletionRows(media, None, at);
      }
    }

    method CompleteDeletion(event: Id, media: Id, at: Time) returns (e: Option<Error>)
      modifies this
      ensures Committed(old(View()), GenerationStore.CompleteDeletion(old(View()), event, media, at), e)
    {
      var before := View();
      if (event, MediaDelete) in files.receipts { return None; }
      if media !in files.media { return Some(NotFound); }
      var asset := files.media[media];
      if !asset.status.Deleting? || media !in files.deletions { return Some(MediaConflict); }
      asset := asset.(status := Deleted, reason := Some(Erased), version := None, sha := 0, derivations := [],
                      updatedAt := at);
      files := files.(media := files.media[media := asset]);
      var deletion := files.deletions[media].(status := DeletionComplete, completedAt := Some(at));
      files := files.(deletions := files.deletions[media := deletion]);
      files := files.(receipts := files.receipts + {(event, MediaDelete)});
      e := FinalizeAccountDeletionIfReady(asset.owner, at);
      if e.Some? { Rollback(before); }
    }

    method CompleteTaskCleanup(claimed: Cleanup, at: Time) returns (e: Option<Error>)
      modifies this
      ensures Committed(old(View()), CompleteCleanup(old(View()), claimed, at), e)
    {
      var before := View();
      if claimed.task !in rows { return Some(NotFound); }
      var r := rows[claimed.task];
      if !ValidCleanup(claimed) { return Some(InvalidCleanup); }
      if claimed.scope !in r.cleanups { return Some(NotFound); }
      if !ClaimMatches(r.cleanups[claimed.scope], claimed) { return Some(CleanupClaim); }
      var finished := Finish(r.cleanups[claimed.scope], at);
      if finished.Err? { return Some(finished.error); }
      r := r.(cleanups := r.cleanups[claimed.scope := finished.value]);
      if !claimed.scope.OrphanScope? { r := r.(output := None); }
      rows := rows[claimed.task := r];
      e := None;
      if finished.value.account.Some? { e := FinalizeAccountDeletionIfReady(finished.value.owner, at); }
      if e.Some? { Rollback(before); }
    }

    method CloseUserRows(user: Id, request: Id, at: Time)
      requires user in users
      modifies this`users, this`sessions, this`accounts, this`used
      ensures View() == CloseUser(old(View()), user, request, at)
    {
      accounts := accounts[user := AccountDeletion(request, at, None)];
      used := used + {request};
      users := users[user := users[user].(status := Leaving, revision := users[user].revision + 1)];
      sessions := sessions - SessionsOf(sessions, user);
    }

    /** Tasks, then the user and the sessions, then the assets. */
    method CloseListedRows(user: Id, request: Id, tasks: seq<Id>, assets: seq<Id>, at: Time) returns (e: Option<Error>)
      requires user in users
      modifies this
      ensures ClosedListed(old(View()), user, request, tasks, assets, at, e)
    {
      ghost var db := View();
      e := EnsureEachRow(tasks, AccountScope, Some(request), at);
      if e.Some? { return; }
      CloseUserRows(user, request, at);
      assert View() == CloseUser(db, user, request, at).(rows := rows);
      e := CloseMediaRows(assets, request, at);
      assert e.None? ==> View() == CloseUser(db, user, request, at).(rows := rows, files := files);
    }

    ghost predicate ClosedListed(
        db: Db, user: Id, request: Id, tasks: seq<Id>, assets: seq<Id>, at: Time, e: Option<Error>)
      requires user in db.users
      reads this
    {
      match EnsureEach(db.rows, tasks, AccountScope, Some(request), at)
      case Err(error) => e == Some(error)
      case Ok(written) =>
        match CloseMedia(db.files, assets, request, at)
        case Err(error) => e == Some(error)
        case Ok(closed) => e.None? && View() == CloseUser(db, user, request, at).(rows := written, files := closed)
    }

    method CloseAccountRows(user: Id, request: Id, at: Time) returns (e: Option<Error>)
      requires user in users
      modifies this
      ensures e.None? ==> CloseAccount(old(View()), user, request, at) == Ok(View())
      ensures e.Some? ==> CloseAccount(old(View()), user, request, at) == Err(e.value)
    {
      e := CloseListedRows(user, request, Ascending(TasksOf(rows, user)), Ascending(Remaining(files, user)), at);
    }

    method BeginAccountDeletion(user: Id, request: Id, at: Time) returns (e: Option<Error>)
      modifies this
      ensures Committed(old(View()), GenerationStore.BeginAccountDeletion(old(View()), user, request, at), e)
    {
      var before := View();
      if user !in users { return Some(NotFound); }
      if !users[user].status.Active? { return Some(Authentication); }
      if user in accounts || request in used { return Some(AccountConflict); }
      var assets := Remaining(files, user);
      e := CloseAccountRows(user, request, at);
      if e.None? && assets == {} { e := FinalizeAccountDeletionIfReady(user, at); }
      if e.Some? { Rollback(before); }
    }

    /** Publishing and finalizing share one transaction: proof, settlement, writes. */
    method FinalizeLeasedTask(lease: Lease, next: Status, code: Option<Id>, at: Time, timeout: Time)
      returns (e: Option<Error>)
      modifies this
      ensures Committed(old(View()), WorkOn(old(View()), lease.task, Finalize(lease, next, code, at), timeout), e)
    {
      var before := View();
      if lease.task !in rows { return Some(NotFound); }
      var t := Load(rows[lease.task]);
      if t.Err? { return Some(t.error); }
      var proof := WorkerProof(t.value, lease, at);
      if proof.Err? { return Some(proof.error); }
      var s := FinalizeWithoutOutput(t.value, rows[lease.task].hold, next, code, at);
      if s.Err? { return Some(s.error); }
      if s.value.token == 0 || s.value.token != t.value.fencing { return Some(SettlementConflict); }
      e := PersistSettlementRows(lease.task, t.value.revision, rows[lease.task].hold, s.value);
      if e.Some? { Rollback(before); }
    }

    method PublishLeasedTask(lease: Lease, asset: Asset, at: Time, timeout: Time) returns (e: Option<Error>)
      modifies this
      ensures Committed(old(View()), PublishOn(old(View()), lease, asset, timeout, at), e)
    {
      var before := View();
      if lease.task !in rows { return Some(NotFound); }
      var t := Load(rows[lease.task]);
      if t.Err? { return Some(t.error); }
      var proof := WorkerProof(t.value, lease, at);
      if proof.Err? { return Some(proof.error); }
      if !Terminal(t.value.status) && ProcessingExpired(t.value.facts.createdAt, timeout, at) { return Some(TimedOut); }
      var s := PublishOutput(t.value, rows[lease.task].hold, asset, at);
      if s.Err? { return Some(s.error); }
      if s.value.token == 0 || s.value.token != t.value.fencing { return Some(SettlementConflict); }
      e := PersistSettlementRows(lease.task, t.value.revision, rows[lease.task].hold, s.value);
      if e.None? && rows[lease.task] != before.rows[lease.task] {
        if asset.id in used { e := Some(Unavailable); } else { used := used + {asset.id}; }
      }
      if e.Some? { Rollback(before); }
    }

    /** Queues every listed object version of an expired task for deletion. */
    method AddVersionRows(id: Id, t: Task, versions: seq<Id>, at: Time) returns (e: Option<Error>)
      requires id in rows
      modifies this`rows
      ensures Wrote(match AddVersions(old(rows)[id], t, versions, at)
                    case Ok(r) => Ok(old(rows)[id := r])
                    case Err(error) => Err(error), e)
    {
      var r := rows[id];
      var i := 0;
      while i < |versions|
        invariant 0 <= i <= |versions|
        invariant rows == old(rows)
        invariant AddVersions(old(rows)[id], t, versions, at) == AddVersions(r, t, versions[i..], at)
      {
        var added := AddTargetToRevoked(r, ObjectTarget(t.facts.id, KeyOf(t.facts), versions[i]), at);
        if added.Err? { return Some(added.error); }
        r := added.value;
        i := i + 1;
      }
      rows := rows[id := r];
      e := None;
    }

    method ExpireRows(id: Id, t: Task, moment: Time, versions: seq<Id>) returns (e: Option<Error>)
      requires id in rows
      modifies this`rows
      ensures Wrote(match ExpireDue(old(rows)[id], t, moment, versions)
                    case Ok(r) => Ok(old(rows)[id := r])
                    case Err(error) => Err(error), e)
    {
      var s := FinalizeWithoutOutput(t, rows[id].hold, Expired, None, moment);
      if s.Err? { return Some(s.error); }
      e := PersistSettlementRows(id, t.revision, rows[id].hold, s.value);
      if e.None? { e := EnsureCleanupRow(id, TaskScope, None, None, moment); }
      if e.None? { e := AddVersionRows(id, s.value.task, versions, moment); }
    }

    /** Settles an overdue task, revokes it, and queues its object versions. */
    method ExpireTaskIfDue(id: Id, provider: Id, cutoff: Time, at: Time, versions: seq<Id>) returns (e: Option<Error>)
      modifies this
      ensures var found := id in old(rows);
              Committed(old(View()),
                        match ExpireTask(if found then old(rows)[id] else NO_ROWS, provider, cutoff, at, versions)
                                     case Ok(r) => Ok(old(View()).(rows := if found then old(rows)[id := r]
                                                                   else old(rows)))
                                     case Err(error) => Err(error), e)
    {
      var before := View();
      if cutoff == 0 || at == 0 || at < cutoff { return Some(InvalidInput); }
      if id !in rows { return None; }
      assert rows[id := rows[id]] == rows;
      if rows[id].task.None? { return None; }
      var t := Load(rows[id]);
      if t.Err? { return Some(t.error); }
      if !DueForExpiry(t.value, provider, cutoff, at) { return None; }
      e := ExpireRows(id, t.value, Max(at, t.value.updatedAt), versions);
      if e.Some? { Rollback(before); }
    }
  }
}
