/** Every committed transaction keeps the core invariant of the tables. */
module GenerationStoreProofs {
  import opened Base
  import opened GenerationTask
  import opened GenerationCleanup
  import opened GenerationRows
  import opened GenerationRowsInvariant
  import opened GenerationRowsProofs
  import opened Media
  import opened GenerationStore
  import opened GenerationStoreInvariant

  // ------------------------------------------------------------------ cascades

  ghost predicate TableOk(rows: map<Id, Rows>) { forall t :: t in rows ==> RowsOk(t, rows[t]) }

  ghost predicate HasTasks(rows: map<Id, Rows>, ids: seq<Id>) {
    forall t :: t in ids ==> t in rows && rows[t].task.Some?
  }

  /** The task is revoked and has the request, linked if it is new. */
  ghost predicate Requests(a: Rows, b: Rows, scope: Scope, account: Option<Id>) {
    && Revoked(b) && scope in b.cleanups
    && (account.Some? && scope !in a.cleanups ==>
          b.cleanups[scope].account == account && !b.cleanups[scope].status.Complete?)
  }

  /** Rows not in `ids` are untouched; rows in `ids` are revoked and requested. */
  ghost predicate EnsuredAll(a: map<Id, Rows>, b: map<Id, Rows>, ids: seq<Id>, scope: Scope, account: Option<Id>) {
    && TableStep(a, b, account)
    && (forall t :: t in a && t !in ids ==> b[t] == a[t])
    && (forall t :: t in a ==> Uncompleted(a[t], b[t]))
    && (forall t :: t in ids ==> t in a && Requests(a[t], b[t], scope, account))
  }

  lemma RequestsThen(a: Rows, m: Rows, b: Rows, scope: Scope, account: Option<Id>)
    requires Requests(a, m, scope, account) && RowStep(m, b, account) && Uncompleted(m, b)
    ensures Requests(a, b, scope, account)
  {
  }

  lemma UncompletedTransitive(a: Rows, b: Rows, c: Rows)
    requires Uncompleted(a, b) && Uncompleted(b, c)
    ensures Uncompleted(a, c)
  {
  }

  lemma EnsuredRowStep(a: Rows, b: Rows, scope: Scope, account: Option<Id>)
    requires Ensured(a, b, scope, account)
    ensures RowStep(a, b, account) && Uncompleted(a, b) && Requests(a, b, scope, account)
  {
  }

  lemma {:induction false} EnsureEachKeeps(rows: map<Id, Rows>, ids: seq<Id>, scope: Scope, account: Option<Id>,
                                           at: Time)
    requires TableOk(rows) && HasTasks(rows, ids) && !scope.OrphanScope?
    requires account.Some? <==> scope.AccountScope?
    requires account.Some? ==> forall t :: t in ids ==> LinkedTo(rows[t], account)
    requires EnsureEach(rows, ids, scope, account, at).Ok?
    ensures EnsuredAll(rows, EnsureEach(rows, ids, scope, account, at).value, ids, scope, account)
    decreases |ids|
  {
    if ids == [] {
      TableStepReflexive(rows, account);
    } else {
      var t := ids[0];
      var r := EnsureCleanup(rows[t], scope, None, account, at).value;
      EnsureKeeps(t, rows[t], scope, None, account, at);
      EnsuredRowStep(rows[t], r, scope, account);
      var mid := rows[t := r];
      OneRowStep(rows, t, r, account);
      EnsureEachKeeps(mid, ids[1..], scope, account, at);
      var last := EnsureEach(rows, ids, scope, account, at).value;
      EnsuredAllChain(rows, t, r, last, ids, scope, account);
    }
  }

  /** One ensured row followed by the rest of the list. */
  lemma EnsuredAllChain(
      a: map<Id, Rows>, t: Id, r: Rows, b: map<Id, Rows>, ids: seq<Id>, scope: Scope, account: Option<Id>)
    requires ids != [] && ids[0] == t && t in a && Ensured(a[t], r, scope, account)
    requires TableStep(a, a[t := r], account) && EnsuredAll(a[t := r], b, ids[1..], scope, account)
    ensures EnsuredAll(a, b, ids, scope, account)
  {
    var mid := a[t := r];
    TableStepTransitive(a, mid, b, account);
    EnsuredRowStep(a[t], r, scope, account);
    forall u | u in a ensures Uncompleted(a[u], b[u]) {
      if u == t { UncompletedTransitive(a[t], r, b[t]); } else { assert mid[u] == a[u]; }
    }
    forall u | u in ids ensures u in a && Requests(a[u], b[u], scope, account) {
      if u == t {
        RequestsThen(a[t], r, b[t], scope, account);
      } else {
        assert u in ids[1..] && mid[u] == a[u];
      }
    }
    forall u | u in a && u !in ids ensures b[u] == a[u] {
      assert u !in ids[1..] && mid[u] == a[u];
    }
  }

  ghost predicate Untouched(a: map<Id, Rows>, b: map<Id, Rows>) {
    forall t :: t in a && t in b ==> Uncompleted(a[t], b[t])
  }

  lemma DependentsKeep(rows: map<Id, Rows>, t: Task, at: Time)
    requires TableOk(rows) && EnsureDependents(rows, t, at).Ok?
    ensures var b := EnsureDependents(rows, t, at).value;
            && TableStep(rows, b, None) && Untouched(rows, b)
            && (forall u :: u in rows && !IsModel(rows[u]) ==> b[u] == rows[u])
            && (t.facts.purpose.Image? && t.result.Some? ==>
                  forall m :: m in ModelsOf(rows, t.facts.owner, t.result.value) ==> Revoked(b[m]))
  {
    if !t.facts.purpose.Image? || t.result.None? {
      TableStepReflexive(rows, None);
    } else {
      var ids := Ascending(ModelsOf(rows, t.facts.owner, t.result.value));
      EnsureEachKeeps(rows, ids, TaskScope, None, at);
    }
  }

  lemma UntouchedTransitive(a: map<Id, Rows>, b: map<Id, Rows>, c: map<Id, Rows>)
    requires a.Keys == b.Keys == c.Keys && Untouched(a, b) && Untouched(b, c)
    ensures Untouched(a, c)
  {
    forall t | t in a ensures Uncompleted(a[t], c[t]) { UncompletedTransitive(a[t], b[t], c[t]); }
  }

  lemma OneUntouched(rows: map<Id, Rows>, id: Id, r: Rows)
    requires id in rows && Uncompleted(rows[id], r)
    ensures Untouched(rows, rows[id := r])
  {
    forall t | t in rows ensures Uncompleted(rows[t], rows[id := r][t]) { }
  }

  /** Only `id` can be an image that these two tables revoke differently. */
  lemma RevokesDependents(rows: map<Id, Rows>, id: Id, r: Rows, b: map<Id, Rows>)
    requires SameOwner(rows) && id in rows && rows[id].task.Some?
    requires TableStep(rows, rows[id := r], None) && TableStep(rows, b, None)
    requires forall u :: u in rows && !IsModel(rows[id := r][u]) ==> b[u] == rows[id := r][u]
    requires var t := rows[id].task.value;
             t.facts.purpose.Image? && t.result.Some? ==>
               forall m :: m in ModelsOf(rows[id := r], t.facts.owner, t.result.value) ==> m in b && Revoked(b[m])
    ensures RevokesModels(rows, b)
  {
    var mid := rows[id := r];
    forall m, i | m in b && i in b && i in rows && BuiltOn(b[m], b[i]) && Revoked(b[i]) && !Revoked(rows[i])
      ensures Revoked(b[m])
    {
      SameFacts(rows, b, None, m, i);
      SameFacts(rows, mid, None, m, i);
      assert m in ModelsOf(mid, rows[id].task.value.facts.owner, rows[id].task.value.result.value);
    }
  }

  /** A task and the models built on it, revoked together. */
  lemma WithDependentsKeeps(rows: map<Id, Rows>, id: Id, scope: Scope, source: Option<Id>, at: Time)
    requires TableOk(rows) && SameOwner(rows) && id in rows && rows[id].task.Some?
             && (scope.TaskScope? || scope.SourceScope?)
    requires EnsureCleanup(rows[id], scope, source, None, at).Ok?
    requires var r := EnsureCleanup(rows[id], scope, source, None, at).value;
             EnsureDependents(rows[id := r], rows[id].task.value, at).Ok?
    ensures var r := EnsureCleanup(rows[id], scope, source, None, at).value;
            var b := EnsureDependents(rows[id := r], rows[id].task.value, at).value;
            && TableStep(rows, b, None) && Untouched(rows, b) && RevokesModels(rows, b)
            && Requests(rows[id], b[id], scope, None)
  {
    var r := EnsureCleanup(rows[id], scope, source, None, at).value;
    EnsureKeeps(id, rows[id], scope, source, None, at);
    DependentsFollow(rows, id, r, scope, at);
  }

  lemma DependentsFollow(rows: map<Id, Rows>, id: Id, r: Rows, scope: Scope, at: Time)
    requires TableOk(rows) && SameOwner(rows) && id in rows && rows[id].task.Some?
    requires RowsOk(id, r) && Ensured(rows[id], r, scope, None)
    requires EnsureDependents(rows[id := r], rows[id].task.value, at).Ok?
    ensures var b := EnsureDependents(rows[id := r], rows[id].task.value, at).value;
            && TableStep(rows, b, None) && Untouched(rows, b) && RevokesModels(rows, b)
            && Requests(rows[id], b[id], scope, None)
  {
    var mid := rows[id := r];
    EnsuredRowStep(rows[id], r, scope, None);
    OneRowStep(rows, id, r, None);
    OneUntouched(rows, id, r);
    DependentsKeep(mid, rows[id].task.value, at);
    var b := EnsureDependents(mid, rows[id].task.value, at).value;
    TableStepTransitive(rows, mid, b, None);
    UntouchedTransitive(rows, mid, b);
    RequestsThen(rows[id], r, b[id], scope, None);
    RevokesDependents(rows, id, r, b);
  }

  lemma RevokesModelsTransitive(a: map<Id, Rows>, b: map<Id, Rows>, c: map<Id, Rows>)
    requires TableStep(a, b, None) && TableStep(b, c, None) && RevokesModels(a, b) && RevokesModels(b, c)
    ensures RevokesModels(a, c)
  {
    forall m, i | m in c && i in c && i in a && BuiltOn(c[m], c[i]) && Revoked(c[i]) && !Revoked(a[i])
      ensures Revoked(c[m])
    {
      SameFacts(b, c, None, m, i);
    }
  }

  lemma SameOwnerKept(a: map<Id, Rows>, b: map<Id, Rows>)
    requires SameOwner(a) && TableStep(a, b, None)
    ensures SameOwner(b)
  {
    forall m, i | m in b && i in b && BuiltOn(b[m], b[i])
      ensures b[m].task.value.facts.owner == b[i].task.value.facts.owner
    {
      SameFacts(a, b, None, m, i);
      SameFacts(a, b, None, i, i);
    }
  }

  lemma {:induction false} EnsureSourcesKeep(rows: map<Id, Rows>, ids: seq<Id>, media: set<Id>, at: Time)
    requires TableOk(rows) && SameOwner(rows) && EnsureSources(rows, ids, media, at).Ok?
    ensures var b := EnsureSources(rows, ids, media, at).value;
            && TableStep(rows, b, None) && Untouched(rows, b) && RevokesModels(rows, b)
            && forall t :: t in ids ==> t in b && Revoked(b[t]) && SourceScope in b[t].cleanups
    decreases |ids|
  {
    if ids == [] {
      TableStepReflexive(rows, None);
    } else {
      var id := ids[0];
      var t := Load(rows[id]).value;
      var source := FirstReference(t.facts.references, media);
      var r := EnsureCleanup(rows[id], SourceScope, source, None, at).value;
      WithDependentsKeeps(rows, id, SourceScope, source, at);
      var mid := EnsureDependents(rows[id := r], t, at).value;
      SameOwnerKept(rows, mid);
      EnsureSourcesKeep(mid, ids[1..], media, at);
      var b := EnsureSources(rows, ids, media, at).value;
      TableStepTransitive(rows, mid, b, None);
      RevokesModelsTransitive(rows, mid, b);
      UntouchedTransitive(rows, mid, b);
      forall u | u in ids ensures u in b && Revoked(b[u]) && SourceScope in b[u].cleanups {
        if u == id { RequestsThen(rows[id], mid[id], b[id], SourceScope, None); } else { assert u in ids[1..]; }
      }
    }
  }

  // ------------------------------------------------------ one transaction at a time

  lemma LocalRowStep(a: Rows, b: Rows)
    requires Local(a, b)
    ensures RowStep(a, b, None) && Uncompleted(a, b)
  {
  }

  lemma RowStepKeepsCore(db: Db, task: Id, r: Rows)
    requires Core(db) && task in db.rows && RowsOk(task, r) && RowStep(db.rows[task], r, None)
    requires Revoked(r) && !Revoked(db.rows[task]) ==> ResultOf(r).None?
    ensures var b := db.(rows := db.rows[task := r]); Core(b) && TableStep(db.rows, b.rows, None)
  {
    var b := db.(rows := db.rows[task := r]);
    OneRowStep(db.rows, task, r, None);
    assert RevokesModels(db.rows, b.rows);
    TableKeepsCore(db, b);
  }

  lemma ReplaceKeepsCore(db: Db, task: Id, r: Rows)
    requires Core(db) && task in db.rows && RowsOk(task, r) && Local(db.rows[task], r)
    ensures var b := db.(rows := db.rows[task := r]);
            Core(b) && TableStep(db.rows, b.rows, None) && Untouched(db.rows, b.rows)
  {
    LocalRowStep(db.rows[task], r);
    OneUntouched(db.rows, task, r);
    RowStepKeepsCore(db, task, r);
  }

  lemma WorkKeepsCore(db: Db, task: Id, op: TaskOp, timeout: Time)
    requires Core(db) && WorkOn(db, task, op, timeout).Ok?
    ensures var b := WorkOn(db, task, op, timeout).value;
            Core(b) && b == db.(rows := b.rows) && TableStep(db.rows, b.rows, None) && Untouched(db.rows, b.rows)
  {
    if task in db.rows {
      OnTaskKeeps(task, db.rows[task], op, timeout);
      ReplaceKeepsCore(db, task, OnTask(db.rows[task], op, timeout).value);
    } else {
      TableStepReflexive(db.rows, None);
    }
  }

  lemma SourceCleanupKeepsCore(db: Db, owner: Id, media: set<Id>, at: Time)
    requires Core(db) && RequestSourceCleanup(db, owner, media, at).Ok?
    ensures var b := RequestSourceCleanup(db, owner, media, at).value;
            && Core(b) && b == db.(rows := b.rows) && TableStep(db.rows, b.rows, None) && Untouched(db.rows, b.rows)
            && forall t :: t in SourceTasks(db.rows, owner, media) ==>
                 Revoked(b.rows[t]) && SourceScope in b.rows[t].cleanups
  {
    var ids := Ascending(SourceTasks(db.rows, owner, media));
    EnsureSourcesKeep(db.rows, ids, media, at);
    TableKeepsCore(db, RequestSourceCleanup(db, owner, media, at).value);
  }

  lemma TaskCleanupKeepsCore(db: Db, owner: Id, task: Id, at: Time)
    requires Core(db) && RequestTaskCleanup(db, owner, task, at).Ok?
    ensures var b := RequestTaskCleanup(db, owner, task, at).value;
            && Core(b) && b == db.(rows := b.rows) && TableStep(db.rows, b.rows, None) && Untouched(db.rows, b.rows)
            && Revoked(b.rows[task]) && TaskScope in b.rows[task].cleanups
  {
    WithDependentsKeeps(db.rows, task, TaskScope, None, at);
    TableKeepsCore(db, RequestTaskCleanup(db, owner, task, at).value);
  }

  // -------------------------------------------------------- publishing, accepting

  lemma PublishedLineage(db: Db, id: Id, r: Rows)
    requires Core(db) && id in db.rows && RowsOk(id, r) && Steps(db.rows[id], r) && !Revoked(r)
    requires ResultOf(r).Some? && ResultOf(r).value !in db.used
    ensures var rows := db.rows[id := r]; SameOwner(rows) && ModelsClosed(rows) && SourcesClosed(db.files, rows)
  {
    var rows := db.rows[id := r];
    forall m, i | m in rows && i in rows && BuiltOn(rows[m], rows[i])
      ensures rows[m].task.value.facts.owner == rows[i].task.value.facts.owner
      ensures Revoked(rows[i]) ==> Revoked(rows[m])
    {
      assert IsModel(db.rows[m]) && i != id;
      assert BuiltOn(db.rows[m], db.rows[i]);
    }
    forall t, ref | t in rows && IsImage(rows[t]) && ref in rows[t].task.value.facts.references
      ensures SourceOk(db.files, rows[t], ref)
    {
      assert SourceOk(db.files, db.rows[t], ref);
    }
  }

  lemma PublishOnShape(db: Db, lease: Lease, asset: Asset, timeout: Time, at: Time)
    requires PublishOn(db, lease, asset, timeout, at).Ok?
    ensures var b := PublishOn(db, lease, asset, timeout, at).value;
            && lease.task in db.rows && PublishTask(db.rows[lease.task], lease, asset, timeout, at).Ok?
            && var r := PublishTask(db.rows[lease.task], lease, asset, timeout, at).value;
               if r == db.rows[lease.task] then b == db
               else asset.id !in db.used && b == db.(rows := db.rows[lease.task := r], used := db.used + {asset.id})
  {
  }

  /** What publishing leaves of the tables, whether it writes or repeats itself. */
  ghost predicate PublishesSafely(db: Db, b: Db) {
    && Core(b) && b == db.(rows := b.rows, used := b.used) && b.rows.Keys == db.rows.Keys && db.used <= b.used
    && (forall t :: t in db.rows ==> Steps(db.rows[t], b.rows[t])) && Untouched(db.rows, b.rows)
  }

  lemma PublishKeepsCore(db: Db, lease: Lease, asset: Asset, timeout: Time, at: Time)
    requires Core(db) && PublishOn(db, lease, asset, timeout, at).Ok?
    ensures PublishesSafely(db, PublishOn(db, lease, asset, timeout, at).value)
  {
    var id := lease.task;
    PublishOnShape(db, lease, asset, timeout, at);
    var r := PublishTask(db.rows[id], lease, asset, timeout, at).value;
    PublishKeeps(id, db.rows[id], lease, asset, timeout, at);
    PublishedKeeps(db, id, r);
    if r == db.rows[id] { RepeatedIsSafe(db); } else { WrittenIsSafe(db, id, r); }
  }

  lemma RepeatedIsSafe(db: Db)
    requires Core(db) && Untouched(db.rows, db.rows) && forall t :: t in db.rows ==> Steps(db.rows[t], db.rows[t])
    ensures PublishesSafely(db, db)
  {
  }

  lemma WrittenIsSafe(db: Db, id: Id, r: Rows)
    requires id in db.rows && ResultOf(r).Some? && Untouched(db.rows, db.rows[id := r])
    requires forall t :: t in db.rows ==> Steps(db.rows[t], db.rows[id := r][t])
    requires Core(db.(rows := db.rows[id := r], used := db.used + {ResultOf(r).value}))
    ensures PublishesSafely(db, db.(rows := db.rows[id := r], used := db.used + {ResultOf(r).value}))
  {
  }

  lemma PublishedKeeps(db: Db, id: Id, r: Rows)
    requires Core(db) && id in db.rows && RowsOk(id, r) && Steps(db.rows[id], r) && Unlinked(db.rows[id], r)
             && !Revoked(r)
    requires ResultOf(r).Some? && (r == db.rows[id] || ResultOf(r).value !in db.used || ResultOf(db.rows[id]).Some?)
    ensures forall t :: t in db.rows ==> Steps(db.rows[t], db.rows[t]) && Steps(db.rows[t], db.rows[id := r][t])
    ensures Untouched(db.rows, db.rows) && Untouched(db.rows, db.rows[id := r])
    ensures ResultOf(r).value !in db.used ==> Core(db.(rows := db.rows[id := r], used := db.used + {ResultOf(r).value}))
  {
    forall t | t in db.rows ensures Steps(db.rows[t], db.rows[t]) { StepsReflexive(t, db.rows[t]); }
    OneUntouched(db.rows, id, r);
    if ResultOf(r).value !in db.used { NewResultKeepsCore(db, id, r); }
  }

  /** Writing one group of rows, conjunct by conjunct. */
  lemma PutKeepsLinks(db: Db, b: Db, id: Id, r: Rows)
    requires LinksOk(db) && b == db.(rows := db.rows[id := r], used := b.used) && db.used <= b.used
    requires forall s :: s in r.cleanups ==> LinkOk(db, r.cleanups[s])
    ensures LinksOk(b)
  {
    forall t, s | t in b.rows && s in b.rows[t].cleanups ensures LinkOk(b, b.rows[t].cleanups[s]) {
      assert LinkOk(db, b.rows[t].cleanups[s]) by { if t != id { assert t in db.rows; } }
    }
  }

  lemma PutKeepsResults(db: Db, b: Db, id: Id, r: Rows)
    requires ResultsOk(db) && b == db.(rows := db.rows[id := r], used := b.used) && db.used <= b.used
    requires ResultOf(r).Some? ==>
               ResultOf(r).value in b.used && forall t :: t in db.rows && t != id ==>
                 ResultOf(db.rows[t]) != ResultOf(r)
    requires IsModel(r) ==> r.task.value.facts.imageAsset.Some? && r.task.value.facts.imageAsset.value in b.used
    ensures ResultsOk(b)
  {
    forall t, u | t in b.rows && u in b.rows && SameResult(b.rows[t], b.rows[u]) ensures t == u {
      if t != id && u != id { assert SameResult(db.rows[t], db.rows[u]); }
    }
  }

  lemma PutKeepsOwned(db: Db, b: Db, id: Id, r: Rows)
    requires Owned(db) && b == db.(rows := db.rows[id := r], used := b.used) && db.used <= b.used
    requires r.task.Some? ==> r.task.value.facts.owner in db.users
    ensures Owned(b)
  {
  }

  lemma PutKeepsRows(db: Db, b: Db, id: Id, r: Rows)
    requires RowsAll(db) && b == db.(rows := db.rows[id := r], used := b.used) && db.used <= b.used
    requires id in b.used && RowsOk(id, r)
    ensures RowsAll(b)
  {
  }

  lemma NewResultKeepsCore(db: Db, id: Id, r: Rows)
    requires Core(db) && id in db.rows && RowsOk(id, r) && Steps(db.rows[id], r) && Unlinked(db.rows[id], r)
             && !Revoked(r)
    requires ResultOf(r).Some? && ResultOf(r).value !in db.used
    ensures Core(db.(rows := db.rows[id := r], used := db.used + {ResultOf(r).value}))
    ensures Untouched(db.rows, db.rows[id := r])
  {
    var b := db.(rows := db.rows[id := r], used := db.used + {ResultOf(r).value});
    PublishedLineage(db, id, r);
    OneUntouched(db.rows, id, r);
    forall s | s in r.cleanups ensures LinkOk(db, r.cleanups[s]) {
      if s in db.rows[id].cleanups { assert LinkOk(db, db.rows[id].cleanups[s]); }
    }
    PutKeepsRows(db, b, id, r);
    PutKeepsLinks(db, b, id, r);
    PutKeepsResults(db, b, id, r);
    PutKeepsOwned(db, b, id, r);
  }

  lemma NewRowsOk(f: Facts)
    requires ValidFacts(f)
    ensures RowsOk(f.id, Rows(Some(NewTask(f)), NewHold(f), None, map[], []))
  {
  }

  /** The task a usable source names is the only one with that output. */
  lemma ModelSource(db: Db, f: Facts, p: Policy) returns (src: Id)
    requires Core(db) && f.purpose.Model? && InputsAvailable(db, f, p.retention, f.createdAt)
    ensures src in db.rows && UsableSource(db.rows[src], f, p.retention, f.createdAt)
    ensures forall i :: i in db.rows && ResultOf(db.rows[i]).Some? && ResultOf(db.rows[i]) == f.imageAsset ==> i == src
  {
    src :| src in db.rows && UsableSource(db.rows[src], f, p.retention, f.createdAt);
    forall i | i in db.rows && ResultOf(db.rows[i]).Some? && ResultOf(db.rows[i]) == f.imageAsset ensures i == src {
      assert SameResult(db.rows[i], db.rows[src]);
    }
  }

  /** A new task: unrevoked, without result, on available inputs. */
  ghost predicate NewlyAccepted(r: Rows, f: Facts) {
    r.task.Some? && r.task.value.facts == f && ResultOf(r).None? && !Revoked(r) && r.cleanups == map[]
  }

  lemma AcceptedModels(db: Db, f: Facts, p: Policy, r: Rows)
    requires Core(db) && f.id !in db.used && NewlyAccepted(r, f) && InputsAvailable(db, f, p.retention, f.createdAt)
    ensures SameOwner(db.rows[f.id := r]) && ModelsClosed(db.rows[f.id := r])
  {
    var rows := db.rows[f.id := r];
    forall m, i | m in rows && i in rows && BuiltOn(rows[m], rows[i])
      ensures rows[m].task.value.facts.owner == rows[i].task.value.facts.owner
      ensures Revoked(rows[i]) ==> Revoked(rows[m])
    {
      if m == f.id {
        var src := ModelSource(db, f, p);
      } else {
        assert BuiltOn(db.rows[m], db.rows[i]);
      }
    }
  }

  lemma AcceptedSources(db: Db, f: Facts, p: Policy, r: Rows)
    requires Core(db) && f.id !in db.used && NewlyAccepted(r, f) && InputsAvailable(db, f, p.retention, f.createdAt)
    ensures SourcesClosed(db.files, db.rows[f.id := r])
  {
    var rows := db.rows[f.id := r];
    forall t, ref | t in rows && IsImage(rows[t]) && ref in rows[t].task.value.facts.references
      ensures SourceOk(db.files, rows[t], ref)
    {
      if t == f.id { assert UsableInput(db, f.owner, ref); } else { assert SourceOk(db.files, db.rows[t], ref); }
    }
  }

  lemma AcceptedKeepsCore(db: Db, f: Facts, p: Policy, r: Rows)
    requires Core(db) && f.id !in db.used && NewlyAccepted(r, f) && InputsAvailable(db, f, p.retention, f.createdAt)
    requires RowsOk(f.id, r) && f.owner in db.users
    ensures Core(db.(rows := db.rows[f.id := r], used := db.used + {f.id}))
  {
    var b := db.(rows := db.rows[f.id := r], used := db.used + {f.id});
    AcceptedModels(db, f, p, r);
    AcceptedSources(db, f, p, r);
    if f.purpose.Model? { var src := ModelSource(db, f, p); }
    PutKeepsRows(db, b, f.id, r);
    PutKeepsLinks(db, b, f.id, r);
    PutKeepsResults(db, b, f.id, r);
    PutKeepsOwned(db, b, f.id, r);
  }

  /** The new task's inputs are its owner's live media or an unrevoked image. */
  lemma AcceptKeepsCore(db: Db, f: Facts, p: Policy)
    requires Core(db) && Accept(db, f, p).Ok?
    ensures Core(Accept(db, f, p).value)
  {
    var b := Accept(db, f, p).value;
    if b != db {
      NewRowsOk(f);
      AcceptedKeepsCore(db, f, p, Rows(Some(NewTask(f)), NewHold(f), None, map[], []));
    }
  }

  // ------------------------------------------------------------ media and users

  /** Assets newly on their way out leave no unrevoked image task behind. */
  ghost predicate RevokesUsers(a: MediaDb, b: MediaDb, rows: map<Id, Rows>) {
    forall t, ref :: t in rows && IsImage(rows[t]) && ref in rows[t].task.value.facts.references ==>
      NewlyGone(a, b, ref.media) ==> Revoked(rows[t])
  }

  predicate NewlyGone(a: MediaDb, b: MediaDb, m: Id) {
    m in a.media && m in b.media && Gone(b.media[m].status) && !Gone(a.media[m].status)
  }

  lemma FilesKeepCore(db: Db, files: MediaDb)
    requires Core(db) && MediaOk(files) && MediaStep(db.files, files) && RevokesUsers(db.files, files, db.rows)
    ensures Core(db.(files := files))
  {
    var b := db.(files := files);
    forall t, ref | t in b.rows && IsImage(b.rows[t]) && ref in b.rows[t].task.value.facts.references
      ensures SourceOk(files, b.rows[t], ref)
    {
      assert SourceOk(db.files, db.rows[t], ref);
    }
    forall m | m in files.media
      ensures files.media[m].owner in db.users
    {
      assert AssetStep(db.files.media[m], files.media[m]);
    }
    forall t, s | t in b.rows && s in b.rows[t].cleanups ensures LinkOk(b, b.rows[t].cleanups[s]) {
      assert LinkOk(db, db.rows[t].cleanups[s]);
    }
  }

  /** Users, sessions and consents may change as long as no owner disappears. */
  lemma PeopleKeepCore(db: Db, b: Db)
    requires Core(db) && b == db.(users := b.users, sessions := b.sessions, used := b.used, files := b.files)
    requires b.files == db.files.(consents := b.files.consents) && db.used <= b.used
    requires db.users.Keys <= b.users.Keys <= b.used
    ensures Core(b)
  {
    forall m | m in b.files.media ensures AssetOk(b.files, m) { assert AssetOk(db.files, m); }
    forall t, ref | t in b.rows && IsImage(b.rows[t]) && ref in b.rows[t].task.value.facts.references
      ensures SourceOk(b.files, b.rows[t], ref)
    {
      assert SourceOk(db.files, db.rows[t], ref);
    }
    forall t, s | t in b.rows && s in b.rows[t].cleanups ensures LinkOk(b, b.rows[t].cleanups[s]) {
      assert LinkOk(db, db.rows[t].cleanups[s]);
    }
  }

  lemma NewAssetKeepsCore(db: Db, files: MediaDb, id: Id)
    requires Core(db) && MediaOk(files) && id !in db.files.media && id in files.media
    requires files.media == db.files.media[id := files.media[id]] && files.media[id].owner in db.users
    ensures Core(db.(files := files, used := db.used + {id}))
  {
    var b := db.(files := files, used := db.used + {id});
    forall t, ref | t in b.rows && IsImage(b.rows[t]) && ref in b.rows[t].task.value.facts.references
      ensures SourceOk(files, b.rows[t], ref)
    {
      assert SourceOk(db.files, db.rows[t], ref);
    }
    forall t, s | t in b.rows && s in b.rows[t].cleanups ensures LinkOk(b, b.rows[t].cleanups[s]) {
      assert LinkOk(db, db.rows[t].cleanups[s]);
    }
  }

  lemma MediaOpKeepsCore(db: Db, op: MediaOp)
    requires Core(db) && OnMedia(db.files, op).Ok?
    ensures Core(db.(files := OnMedia(db.files, op).value))
  {
    OnMediaKeeps(db.files, op);
    FilesKeepCore(db, OnMedia(db.files, op).value);
  }

  lemma WithdrawKeepsCore(db: Db, owner: Id, consent: Id, at: Time)
    requires Core(db) && WithdrawConsent(db, owner, consent, at).Ok?
    ensures var b := WithdrawConsent(db, owner, consent, at).value;
            && Core(b) && b == db.(rows := b.rows, files := db.files.(consents := b.files.consents))
            && TableStep(db.rows, b.rows, None) && Untouched(db.rows, b.rows)
  {
    var c := db.files.consents[consent];
    var withdrawn := if c.withdrawnAt.None? then c.(withdrawnAt := Some(at)) else c;
    var saved := db.(files := db.files.(consents := db.files.consents[consent := withdrawn]));
    PeopleKeepCore(db, saved);
    TableStepReflexive(db.rows, None);
    var media := GivenUnder(db.files, owner, consent, c.purpose);
    if c.purpose.GenerationInput? && media != {} { SourceCleanupKeepsCore(saved, owner, media, at); }
  }

  lemma ReferencesIn(t: Task, ref: Reference)
    requires ref in t.facts.references
    ensures References(t, {ref.media})
  {
  }

  lemma DeletedAssetRevokes(a: map<Id, Rows>, b: map<Id, Rows>, before: MediaDb, after: MediaDb, media: Id)
    requires TableStep(a, b, None) && SourcesClosed(before, b) && media in before.media
    requires forall m :: NewlyGone(before, after, m) ==> m == media
    requires forall t :: t in SourceTasks(a, before.media[media].owner, {media}) ==> Revoked(b[t])
    ensures RevokesUsers(before, after, b)
  {
    forall t, ref | t in b && IsImage(b[t]) && ref in b[t].task.value.facts.references
      && NewlyGone(before, after, ref.media)
      ensures Revoked(b[t])
    {
      assert SourceOk(before, b[t], ref);
      SameFacts(a, b, None, t, t);
      assert RowStep(a[t], b[t], None);
      ReferencesIn(a[t].task.value, ref);
      assert t in SourceTasks(a, before.media[media].owner, {media});
    }
  }

  /** Deleting an asset revokes every image task that used it, in the same step. */
  lemma DeletedAssetKeepsCore(db: Db, b: Db, media: Id, account: Option<Id>, at: Time)
    requires Core(b) && b == db.(rows := b.rows) && TableStep(db.rows, b.rows, None)
    requires media in db.files.media && !Gone(db.files.media[media].status)
    requires forall t :: t in SourceTasks(db.rows, db.files.media[media].owner, {media}) ==> Revoked(b.rows[t])
    ensures Core(b.(files := RequestDeletion(b.files, media, account, at)))
  {
    var files := RequestDeletion(b.files, media, account, at);
    RequestDeletionKeeps(b.files, media, account, at);
    DeletedAssetRevokes(db.rows, b.rows, b.files, files, media);
    FilesKeepCore(b, files);
  }

  lemma DeleteKeepsCore(db: Db, owner: Id, media: Id, blocked: bool, at: Time)
    requires Core(db) && DeleteMedia(db, owner, media, blocked, at).Ok?
    ensures var b := DeleteMedia(db, owner, media, blocked, at).value;
            && Core(b) && b == db.(rows := b.rows, files := b.files)
            && TableStep(db.rows, b.rows, None) && Untouched(db.rows, b.rows)
            && (b.files == db.files || b.files == RequestDeletion(db.files, media, None, at))
            && (b.files != db.files ==> !Gone(db.files.media[media].status))
  {
    assert AssetOk(db.files, media);
    if media in db.files.deletions {
      TableStepReflexive(db.rows, None);
    } else {
      SourceCleanupKeepsCore(db, owner, {media}, at);
      DeletedAssetKeepsCore(db, RequestSourceCleanup(db, owner, {media}, at).value, media, None, at);
    }
  }
}
