/** What holds of the tables in every reachable state: well-formed rows, unique
    outputs, the lineage from media to image task to model task, the closure of
    revocation along it, and the links between requests and account deletions. */
module GenerationStoreInvariant {
  import opened Base
  import opened GenerationTask
  import opened GenerationCleanup
  import opened GenerationRows
  import opened GenerationRowsInvariant
  import opened Media
  import opened GenerationStore

  ghost predicate RowsAll(db: Db) {
    forall t :: t in db.rows ==> t in db.used && RowsOk(t, db.rows[t])
  }

  /** Every task and asset belongs to a stored user. */
  ghost predicate Owned(db: Db) {
    && (forall t :: t in db.rows && db.rows[t].task.Some? ==> db.rows[t].task.value.facts.owner in db.users)
    && (forall m :: m in db.files.media ==> db.files.media[m].owner in db.users)
    && db.users.Keys <= db.used && db.accounts.Keys <= db.used
  }

  predicate IsModel(r: Rows) { r.task.Some? && r.task.value.facts.purpose.Model? }
  predicate IsImage(r: Rows) { r.task.Some? && r.task.value.facts.purpose.Image? }

  predicate SameResult(a: Rows, b: Rows) { ResultOf(a).Some? && ResultOf(a) == ResultOf(b) }

  /** Outputs are never shared, and every identifier a row refers to was issued. */
  ghost predicate ResultsOk(db: Db) {
    && (forall t :: t in db.rows && ResultOf(db.rows[t]).Some? ==> ResultOf(db.rows[t]).value in db.used)
    && (forall t, u :: t in db.rows && u in db.rows && SameResult(db.rows[t], db.rows[u]) ==> t == u)
    && (forall t :: t in db.rows && IsModel(db.rows[t]) ==>
          db.rows[t].task.value.facts.imageAsset.Some? && db.rows[t].task.value.facts.imageAsset.value in db.used)
  }

  /** The model task `m` was built on the output of the image task `i`. */
  predicate BuiltOn(m: Rows, i: Rows) {
    IsModel(m) && IsImage(i) && i.task.value.result.Some? && m.task.value.facts.imageAsset == i.task.value.result
  }

  ghost predicate SameOwner(rows: map<Id, Rows>) {
    forall m, i :: m in rows && i in rows && BuiltOn(rows[m], rows[i]) ==>
      rows[m].task.value.facts.owner == rows[i].task.value.facts.owner
  }

  /** A revoked image takes every model built on it along. */
  ghost predicate ModelsClosed(rows: map<Id, Rows>) {
    forall m, i :: m in rows && i in rows && BuiltOn(rows[m], rows[i]) && Revoked(rows[i]) ==> Revoked(rows[m])
  }

  ghost predicate SourceOk(files: MediaDb, r: Rows, ref: Reference)
    requires r.task.Some?
  {
    && ref.media in files.media && files.media[ref.media].owner == r.task.value.facts.owner
    && (Gone(files.media[ref.media].status) ==> Revoked(r))
  }

  /** An image task's inputs are its owner's assets, and a deleted input takes
      every image task that used it along. */
  ghost predicate SourcesClosed(files: MediaDb, rows: map<Id, Rows>) {
    forall t, ref :: t in rows && IsImage(rows[t]) && ref in rows[t].task.value.facts.references ==>
      SourceOk(files, rows[t], ref)
  }

  ghost predicate LinkOk(db: Db, c: Cleanup) {
    c.account.Some? ==>
      && c.owner in db.accounts && db.accounts[c.owner].id == c.account.value && db.accounts[c.owner].completedAt.None?
  }

  ghost predicate LinksOk(db: Db) {
    && (forall t, s :: t in db.rows && s in db.rows[t].cleanups ==> LinkOk(db, db.rows[t].cleanups[s]))
    && (forall u :: u in db.accounts ==> db.accounts[u].id in db.used)
    && (forall u, v :: u in db.accounts && v in db.accounts && db.accounts[u].id == db.accounts[v].id ==> u == v)
  }

  ghost predicate Core(db: Db) {
    && RowsAll(db) && Owned(db) && MediaOk(db.files) && ResultsOk(db)
    && SameOwner(db.rows) && ModelsClosed(db.rows) && SourcesClosed(db.files, db.rows) && LinksOk(db)
  }

  // ----------------------------------------------------------- table relations

  /** A change of one task's rows that publishes nothing and links requests to
      `account` at most. */
  ghost predicate RowStep(a: Rows, b: Rows, account: Option<Id>) {
    && Steps(a, b) && ResultOf(a) == ResultOf(b)
    && (forall s :: s in b.cleanups ==>
          b.cleanups[s].account in {if s in a.cleanups then a.cleanups[s].account else None, account})
  }

  ghost predicate TableStep(a: map<Id, Rows>, b: map<Id, Rows>, account: Option<Id>) {
    && a.Keys == b.Keys
    && (forall t :: t in a ==> RowStep(a[t], b[t], account))
    && (forall t :: t in b ==> RowsOk(t, b[t]))
  }

  /** No request becomes complete. */
  ghost predicate Uncompleted(a: Rows, b: Rows) {
    forall s :: s in b.cleanups && b.cleanups[s].status.Complete? ==>
      s in a.cleanups && FinishesNothing(a.cleanups[s], b.cleanups[s])
  }

  lemma StepsReflexive(id: Id, r: Rows)
    requires RowsOk(id, r)
    ensures Steps(r, r)
  {
    forall s | s in r.cleanups ensures CleanupStep(r.cleanups[s], r.cleanups[s]) {
      assert CleanupOk(id, r, s);
    }
  }

  lemma TableStepReflexive(rows: map<Id, Rows>, account: Option<Id>)
    requires forall t :: t in rows ==> RowsOk(t, rows[t])
    ensures TableStep(rows, rows, account)
  {
    forall t | t in rows ensures RowStep(rows[t], rows[t], account) {
      StepsReflexive(t, rows[t]);
    }
  }

  lemma RowStepTransitive(a: Rows, b: Rows, c: Rows, account: Option<Id>)
    requires RowStep(a, b, account) && RowStep(b, c, account)
    ensures RowStep(a, c, account)
  {
    StepsTransitive(a, b, c);
    forall s | s in c.cleanups
      ensures c.cleanups[s].account in {if s in a.cleanups then a.cleanups[s].account else None, account}
    {
      if s in b.cleanups { } else { assert s !in a.cleanups; }
    }
  }

  lemma TableStepTransitive(a: map<Id, Rows>, b: map<Id, Rows>, c: map<Id, Rows>, account: Option<Id>)
    requires TableStep(a, b, account) && TableStep(b, c, account)
    ensures TableStep(a, c, account)
  {
    forall t | t in a ensures RowStep(a[t], c[t], account) {
      RowStepTransitive(a[t], b[t], c[t], account);
    }
  }

  /** Replacing the rows of one task. */
  lemma OneRowStep(rows: map<Id, Rows>, t: Id, r: Rows, account: Option<Id>)
    requires forall u :: u in rows ==> RowsOk(u, rows[u])
    requires t in rows && RowsOk(t, r) && RowStep(rows[t], r, account)
    ensures TableStep(rows, rows[t := r], account)
  {
    TableStepReflexive(rows, account);
  }

  // ------------------------------------------- what a table change leaves intact

  /** Facts never change, so lineage and inputs are read off either table. */
  lemma SameFacts(a: map<Id, Rows>, b: map<Id, Rows>, account: Option<Id>, m: Id, i: Id)
    requires TableStep(a, b, account) && m in a && i in a
    ensures BuiltOn(b[m], b[i]) == BuiltOn(a[m], a[i])
    ensures IsImage(b[m]) == IsImage(a[m]) && (a[m].task.Some? ==> b[m].task.value.facts == a[m].task.value.facts)
    ensures Revoked(a[m]) ==> Revoked(b[m])
  {
    assert RowStep(a[m], b[m], account) && RowStep(a[i], b[i], account);
  }

  lemma TableKeepsResults(db: Db, next: Db, account: Option<Id>)
    requires Core(db) && TableStep(db.rows, next.rows, account) && db.used <= next.used
    ensures ResultsOk(next) && SameOwner(next.rows)
  {
    TableKeepsOutputs(db, next, account);
    TableKeepsOwners(db.rows, next.rows, account);
  }

  lemma TableKeepsOutputs(db: Db, next: Db, account: Option<Id>)
    requires ResultsOk(db) && TableStep(db.rows, next.rows, account) && db.used <= next.used
    ensures ResultsOk(next)
  {
    forall t | t in next.rows
      ensures ResultOf(next.rows[t]) == ResultOf(db.rows[t]) && IsModel(next.rows[t]) == IsModel(db.rows[t])
      ensures db.rows[t].task.Some? ==> next.rows[t].task.value.facts == db.rows[t].task.value.facts
    {
      assert RowStep(db.rows[t], next.rows[t], account);
    }
  }

  lemma TableKeepsOwners(a: map<Id, Rows>, b: map<Id, Rows>, account: Option<Id>)
    requires SameOwner(a) && TableStep(a, b, account)
    ensures SameOwner(b)
  {
    forall m, i | m in b && i in b && BuiltOn(b[m], b[i])
      ensures b[m].task.value.facts.owner == b[i].task.value.facts.owner
    {
      SameFacts(a, b, account, m, i);
      SameFacts(a, b, account, i, i);
    }
  }

  lemma TableKeepsSources(files: MediaDb, a: map<Id, Rows>, b: map<Id, Rows>, account: Option<Id>)
    requires SourcesClosed(files, a) && TableStep(a, b, account)
    ensures SourcesClosed(files, b)
  {
    forall t, ref | t in b && IsImage(b[t]) && ref in b[t].task.value.facts.references
      ensures SourceOk(files, b[t], ref)
    {
      SameFacts(a, b, account, t, t);
      assert SourceOk(files, a[t], ref);
    }
  }

  lemma TableKeepsLinks(db: Db, next: Db)
    requires LinksOk(db) && TableStep(db.rows, next.rows, None) && next.accounts == db.accounts && db.used <= next.used
    ensures LinksOk(next)
  {
    forall t, s | t in next.rows && s in next.rows[t].cleanups ensures LinkOk(next, next.rows[t].cleanups[s]) {
      assert RowStep(db.rows[t], next.rows[t], None);
      if s in db.rows[t].cleanups { assert LinkOk(db, db.rows[t].cleanups[s]); }
    }
  }

  /** Newly revoked images have all their models revoked. */
  ghost predicate RevokesModels(a: map<Id, Rows>, b: map<Id, Rows>) {
    forall m, i :: m in b && i in b && i in a && BuiltOn(b[m], b[i]) && Revoked(b[i]) && !Revoked(a[i]) ==>
      Revoked(b[m])
  }

  lemma TableKeepsModels(a: map<Id, Rows>, b: map<Id, Rows>, account: Option<Id>)
    requires ModelsClosed(a) && TableStep(a, b, account) && RevokesModels(a, b)
    ensures ModelsClosed(b)
  {
    forall m, i | m in b && i in b && BuiltOn(b[m], b[i]) && Revoked(b[i]) ensures Revoked(b[m]) {
      SameFacts(a, b, account, m, i);
    }
  }

  /** The lemma every task-side transaction goes through. */
  lemma TableKeepsCore(db: Db, next: Db)
    requires Core(db) && next == db.(rows := next.rows) && TableStep(db.rows, next.rows, None)
    requires RevokesModels(db.rows, next.rows)
    ensures Core(next)
  {
    TableKeepsResults(db, next, None);
    TableKeepsSources(db.files, db.rows, next.rows, None);
    TableKeepsLinks(db, next);
    TableKeepsModels(db.rows, next.rows, None);
    forall t | t in next.rows && next.rows[t].task.Some? ensures next.rows[t].task.value.facts.owner in db.users {
      SameFacts(db.rows, next.rows, None, t, t);
      assert RowStep(db.rows[t], next.rows[t], None);
    }
  }
}
