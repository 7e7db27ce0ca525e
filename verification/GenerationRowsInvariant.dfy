/** What every transaction on one task keeps: the row invariant, and the relation
    between the rows before and after. */
module GenerationRowsInvariant {
  import opened Base
  import opened GenerationTask
  import opened GenerationCleanup
  import opened GenerationRows

  // ------------------------------------------------------------- row invariant

  ghost predicate TaskOk(id: Id, t: Task) {
    && t.facts.id == id && Valid(t)
    && (t.result.Some? ==> t.status.Succeeded?)
    && (t.revokedAt.Some? && !Terminal(t.status) ==> t.cancelRequestedAt.Some?)
  }

  function HoldState(s: Status): ReservationState {
    if !Terminal(s) then Reserved else if s.Succeeded? then Consumed else Released
  }

  /** The hold leaves `Reserved` exactly when the task becomes terminal. */
  ghost predicate HoldOk(t: Task, hold: Option<Reservation>) {
    ReservationMatches(t, hold) && Holds(hold, HoldState(t.status))
  }

  ghost predicate OutputOk(t: Task, output: Option<Output>) {
    && (output.Some? ==>
          var a := output.value.asset;
          && t.status.Succeeded? && t.result == Some(a.id)
          && a.task == t.facts.id && a.owner == t.facts.owner && a.purpose == t.facts.purpose
             && a.key == KeyOf(t.facts))
    && (t.status.Succeeded? && t.revokedAt.None? ==> output.Some? && ValidAsset(t, output.value.asset))
  }

  /** A request of a live task row: an owner request follows from a revocation,
      and provider targets name the stored identity. */
  ghost predicate RequestOk(t: Task, c: Cleanup) {
    && c.owner == t.facts.owner && (!c.scope.OrphanScope? ==> t.revokedAt.Some?)
    && (forall u :: u in c.targets && u.ProviderTarget? ==> t.externalID.Some? && u == TaskTarget(t))
  }

  ghost predicate CleanupOk(id: Id, r: Rows, scope: Scope)
    requires scope in r.cleanups
  {
    var c := r.cleanups[scope];
    && ValidCleanup(c) && c.scope == scope && c.task == id
    && (c.account.Some? ==> AccountScope in r.cleanups && r.task.Some?)
    && (scope.AccountScope? && r.task.Some? ==> c.account.Some?)
    && (r.task.Some? ==> RequestOk(r.task.value, c))
  }

  ghost predicate BaseOk(id: Id, r: Rows) {
    && (match r.task
        case None => r.hold.None? && r.output.None? && r.audits == []
        case Some(t) => TaskOk(id, t) && HoldOk(t, r.hold) && OutputOk(t, r.output))
    && (forall scope :: scope in r.cleanups ==> CleanupOk(id, r, scope))
  }

  ghost predicate ListsAll(c: Cleanup, r: Rows, t: Task) {
    && (t.externalID.Some? ==> Lists(c.targets, TaskTarget(t)))
    && (r.output.Some? ==> Lists(c.targets, OutputTarget(r.output.value)))
  }

  /** A revoked task has an owner request, and every owner request lists every
      known side effect of the task, however late it became known. */
  ghost predicate Covered(r: Rows) {
    r.task.Some? ==>
      && (r.task.value.revokedAt.Some? ==> Requested(r))
      && (forall s :: s in r.cleanups && !s.OrphanScope? ==> ListsAll(r.cleanups[s], r, r.task.value))
  }

  ghost predicate RowsOk(id: Id, r: Rows) { BaseOk(id, r) && Covered(r) }

  // ------------------------------------------------------------ step relations

  ghost predicate HoldStep(a: Reservation, b: Reservation) {
    b.(state := a.state, revision := a.revision, updatedAt := a.updatedAt) == a
      && (a.state.Reserved? || b.state == a.state)
  }

  /** One transaction that does not erase the task. */
  ghost predicate Steps(a: Rows, b: Rows) {
    && a.task.Some? == b.task.Some? && (a.task.Some? ==> Advances(a.task.value, b.task.value))
    && a.hold.Some? == b.hold.Some? && (a.hold.Some? ==> HoldStep(a.hold.value, b.hold.value))
    && a.cleanups.Keys <= b.cleanups.Keys && (a.task.None? ==> a.cleanups.Keys == b.cleanups.Keys)
    && (forall s :: s in a.cleanups ==> CleanupStep(a.cleanups[s], b.cleanups[s]))
    && a.audits <= b.audits
  }

  lemma StepsTransitive(a: Rows, b: Rows, c: Rows)
    requires Steps(a, b) && Steps(b, c)
    ensures Steps(a, c)
  {
    forall s | s in a.cleanups ensures CleanupStep(a.cleanups[s], c.cleanups[s]) {
      assert s in b.cleanups;
    }
  }

  predicate Revoked(r: Rows) { r.task.Some? && r.task.value.revokedAt.Some? }

  function ResultOf(r: Rows): Option<Id> { if r.task.None? then None else r.task.value.result }

  /** No request becomes linked to an account deletion and none becomes complete. */
  ghost predicate Unlinked(a: Rows, b: Rows) {
    forall s :: s in b.cleanups ==>
      if s in a.cleanups then
        b.cleanups[s].account == a.cleanups[s].account && FinishesNothing(a.cleanups[s], b.cleanups[s])
      else b.cleanups[s].account.None? && !b.cleanups[s].status.Complete?
  }

  /** A transaction that publishes nothing, links nothing and completes nothing;
      it may revoke a task only while that task has no result. */
  ghost predicate Local(a: Rows, b: Rows) {
    && Steps(a, b) && Unlinked(a, b) && ResultOf(a) == ResultOf(b)
    && (Revoked(b) && !Revoked(a) ==> ResultOf(b).None?)
  }

  lemma LocalTransitive(a: Rows, b: Rows, c: Rows)
    requires Local(a, b) && Local(b, c)
    ensures Local(a, c)
  {
    StepsTransitive(a, b, c);
    forall s | s in c.cleanups && s in a.cleanups
      ensures c.cleanups[s].account == a.cleanups[s].account
      ensures FinishesNothing(a.cleanups[s], c.cleanups[s])
    {
      assert s in b.cleanups;
    }
  }

  // --------------------------------------------- the building blocks, one by one

  /** The task row of `r` may be replaced by `t`: same settlement, same identity
      unless the first identity is being recorded. */
  ghost predicate Replaces(r: Rows, t: Task) {
    && r.task.Some? && Advances(r.task.value, t) && t.result == r.task.value.result
    && Terminal(t.status) == Terminal(r.task.value.status)
  }

  lemma SavedTask(id: Id, r: Rows, t: Task)
    requires BaseOk(id, r) && TaskOk(id, t) && Replaces(r, t)
    ensures var b := r.(task := Some(t)); BaseOk(id, b) && Steps(r, b)
  {
    var b := r.(task := Some(t));
    forall s | s in b.cleanups ensures CleanupOk(id, b, s) {
      assert CleanupOk(id, r, s);
    }
  }

  /** What a settlement without output computes. */
  lemma FinalizedShape(t: Task, hold: Option<Reservation>, next: Status, code: Option<Id>, at: Time)
    requires FinalizeWithoutOutput(t, hold, next, code, at).Ok?
    ensures var s := FinalizeWithoutOutput(t, hold, next, code, at).value;
            && Valid(s.task) && Advances(t, s.task) && s.task.status == next && Terminal(next) && !next.Succeeded?
            && s.task.result == t.result && s.task.externalID == t.externalID && s.task.revokedAt == t.revokedAt
            && s.asset.None? && s.token == t.fencing && s.task.fencing == t.fencing
            && HoldOk(s.task, s.reservation) && s.reservation.Some? == hold.Some?
            && (hold.Some? ==> HoldStep(hold.value, s.reservation.value))
            && (Terminal(t.status) ==> s.task == t && s.reservation == hold)
  {
  }

  /** The rows a settlement leaves behind. */
  lemma PersistedShape(r: Rows, previous: nat, hold: Option<Reservation>, s: Settlement)
    requires PersistSettlement(r, previous, hold, s).Ok? && hold == r.hold
    ensures var b := PersistSettlement(r, previous, hold, s).value;
            && r.task.Some? && b == r.(task := Some(s.task), hold := s.reservation, output := b.output)
            && (s.asset.None? ==> r.output.None? && b.output.None?)
            && (s.asset.Some? && s.reused ==>
                  b.output == r.output && r.output.Some? && r.output.value.asset == s.asset.value)
            && (s.asset.Some? && !s.reused ==> r.output.None? && b.output == Some(Output(s.asset.value, None)))
            && (s.asset.Some? ==> ValidAsset(s.task, s.asset.value))
  {
  }

  /** A settlement without output, written over the row it was computed from or
      over an earlier row of the same task. */
  lemma FinalizedTask(id: Id, r: Rows, t: Task, next: Status, code: Option<Id>, at: Time)
    requires BaseOk(id, r) && TaskOk(id, t) && Replaces(r, t)
    requires FinalizeWithoutOutput(t, r.hold, next, code, at).Ok?
    requires var s := FinalizeWithoutOutput(t, r.hold, next, code, at).value;
             PersistSettlement(r, r.task.value.revision, r.hold, s).Ok?
    ensures var s := FinalizeWithoutOutput(t, r.hold, next, code, at).value;
            var b := PersistSettlement(r, r.task.value.revision, r.hold, s).value;
            && BaseOk(id, b) && Steps(r, b) && b.task == Some(s.task) && b.cleanups == r.cleanups && b.output.None?
            && b.audits == r.audits && s.task.status == next && s.task.result == t.result
               && s.task.externalID == t.externalID
            && s.task.revokedAt == t.revokedAt
  {
    var s := FinalizeWithoutOutput(t, r.hold, next, code, at).value;
    FinalizedShape(t, r.hold, next, code, at);
    PersistedShape(r, r.task.value.revision, r.hold, s);
    var b := r.(task := Some(s.task), hold := s.reservation);
    forall k | k in b.cleanups ensures CleanupOk(id, b, k) {
      assert CleanupOk(id, r, k);
    }
  }

  /** What a publication computes. */
  lemma PublishedShape(t: Task, hold: Option<Reservation>, a: Asset, at: Time)
    requires PublishOutput(t, hold, a, at).Ok?
    ensures var s := PublishOutput(t, hold, a, at).value;
            && Valid(s.task) && Advances(t, s.task) && s.task.status.Succeeded? && s.task.result == Some(a.id)
            && s.task.externalID == t.externalID && s.task.revokedAt.None? && t.revokedAt.None?
            && s.asset == Some(a) && s.token == t.fencing && s.task.fencing == t.fencing
            && HoldOk(s.task, s.reservation) && s.reservation.Some? == hold.Some?
            && (hold.Some? ==> HoldStep(hold.value, s.reservation.value))
            && (if t.result.Some? then s.reused && s.task == t && s.reservation == hold
                else !s.reused && !Terminal(t.status))
  {
  }

  lemma PublishedRows(id: Id, r: Rows, b: Rows, s: Settlement)
    requires BaseOk(id, r) && r.task.Some? && s.asset.Some? && ValidAsset(s.task, s.asset.value)
    requires Valid(s.task) && Advances(r.task.value, s.task) && s.task.status.Succeeded?
             && s.task.result == Some(s.asset.value.id) && s.task.revokedAt.None?
    requires s.task.externalID == r.task.value.externalID
    requires HoldOk(s.task, s.reservation) && s.reservation.Some? == r.hold.Some?
             && (r.hold.Some? ==> HoldStep(r.hold.value, s.reservation.value))
    requires b == r.(task := Some(s.task), hold := s.reservation, output := b.output)
    requires if s.reused then s.task == r.task.value && b.output == r.output && r.output.Some?
             else r.task.value.result.None? && r.output.None? && b.output == Some(Output(s.asset.value, None))
    ensures BaseOk(id, b) && Steps(r, b)
  {
    forall k | k in b.cleanups ensures CleanupOk(id, b, k) && CleanupStep(r.cleanups[k], b.cleanups[k]) {
      assert CleanupOk(id, r, k);
    }
  }

  lemma PublishedTask(id: Id, r: Rows, a: Asset, at: Time)
    requires BaseOk(id, r) && r.task.Some?
    requires PublishOutput(r.task.value, r.hold, a, at).Ok?
    requires var s := PublishOutput(r.task.value, r.hold, a, at).value;
             PersistSettlement(r, r.task.value.revision, r.hold, s).Ok?
    ensures var s := PublishOutput(r.task.value, r.hold, a, at).value;
            var b := PersistSettlement(r, r.task.value.revision, r.hold, s).value;
            && BaseOk(id, b) && Steps(r, b) && b.cleanups == r.cleanups && b.task == Some(s.task)
            && s.task.status.Succeeded? && s.task.result == Some(a.id) && s.task.revokedAt.None?
            && s.task.externalID == r.task.value.externalID && b.output.Some?
            && (r.task.value.result.Some? ==> b == r)
  {
    var s := PublishOutput(r.task.value, r.hold, a, at).value;
    var b := PersistSettlement(r, r.task.value.revision, r.hold, s).value;
    PublishedShape(r.task.value, r.hold, a, at);
    PersistedShape(r, r.task.value.revision, r.hold, s);
    PublishedRows(id, r, b, s);
  }

  /** Linking the unpublished-output request changes that one request. */
  lemma AttachedShape(r: Rows, account: Id, at: Time)
    requires AttachOrphan(r, account, at).Ok?
    requires forall s :: s in r.cleanups ==> CleanupStep(r.cleanups[s], r.cleanups[s])
    requires OrphanScope in r.cleanups ==> r.cleanups[OrphanScope].account in {None, Some(account)}
    ensures var b := AttachOrphan(r, account, at).value;
            && b == r.(cleanups := b.cleanups) && b.cleanups.Keys == r.cleanups.Keys
            && (forall s :: s in r.cleanups && !s.OrphanScope? ==> b.cleanups[s] == r.cleanups[s])
            && (forall s :: s in r.cleanups ==> CleanupStep(r.cleanups[s], b.cleanups[s]))
            && (OrphanScope in r.cleanups ==>
                  var c := b.cleanups[OrphanScope];
                  c == r.cleanups[OrphanScope].(account := Some(account), updatedAt := c.updatedAt))
  {
  }

  lemma Attached(id: Id, r: Rows, account: Id, at: Time)
    requires RowsOk(id, r) && r.task.Some? && AccountScope in r.cleanups
    requires OrphanScope in r.cleanups ==> r.cleanups[OrphanScope].account in {None, Some(account)}
    requires AttachOrphan(r, account, at).Ok?
    ensures var b := AttachOrphan(r, account, at).value;
            && RowsOk(id, b) && Steps(r, b) && b == r.(cleanups := b.cleanups) && b.cleanups.Keys == r.cleanups.Keys
            && (forall s :: s in r.cleanups && !s.OrphanScope? ==> b.cleanups[s] == r.cleanups[s])
            && (OrphanScope in r.cleanups ==>
                  b.cleanups[OrphanScope].account == Some(account)
                  && FinishesNothing(r.cleanups[OrphanScope], b.cleanups[OrphanScope]))
  {
    var b := AttachOrphan(r, account, at).value;
    forall s | s in r.cleanups ensures CleanupOk(id, r, s) && CleanupStep(r.cleanups[s], r.cleanups[s]) {
      assert CleanupOk(id, r, s);
    }
    AttachedShape(r, account, at);
    forall s | s in b.cleanups ensures CleanupOk(id, b, s) {
      assert CleanupOk(id, r, s);
    }
  }

  // ------------------------------------------------------------------- cleanup

  /** The links a cleanup cascade may set: none, or the account being deleted. */
  ghost predicate LinkedTo(r: Rows, account: Option<Id>) {
    forall s :: s in r.cleanups ==> r.cleanups[s].account in {None, account}
  }

  /** What ensuring a request does: the task is revoked and has the request, every
      other request is as it was, and only the requested account link is new. */
  ghost predicate Ensured(a: Rows, b: Rows, scope: Scope, account: Option<Id>) {
    && Steps(a, b) && Revoked(b) && scope in b.cleanups && ResultOf(a) == ResultOf(b)
    && (forall s :: s in b.cleanups ==>
          && (b.cleanups[s].status.Complete? ==> s in a.cleanups && FinishesNothing(a.cleanups[s], b.cleanups[s]))
          && b.cleanups[s].account in {if s in a.cleanups then a.cleanups[s].account else None, account})
    && (account.Some? && scope !in a.cleanups ==>
          b.cleanups[scope].account == account && !b.cleanups[scope].status.Complete?)
  }

  lemma ClosingIsOk(id: Id, t: Task, moment: Time)
    requires TaskOk(id, t) && t.updatedAt <= moment && Closing(t, moment).Ok?
    ensures var c := Closing(t, moment).value;
            && TaskOk(id, c) && Advances(t, c) && c.result == t.result && c.status == t.status
               && c.externalID == t.externalID
            && c.revokedAt.Some? && (t.revokedAt.Some? ==> c == t) && c.updatedAt <= moment
               && (c.revision == t.revision ==> c == t)
  {
  }

  lemma SaveClosingIsOk(id: Id, r: Rows, t: Task, closing: Task, moment: Time)
    requires BaseOk(id, r) && r.task == Some(t) && t.updatedAt <= moment
    requires Closing(t, moment) == Ok(closing) && SaveClosing(r, t, closing, moment).Ok?
    ensures var b := SaveClosing(r, t, closing, moment).value;
            && BaseOk(id, b) && Steps(r, b) && Revoked(b) && ResultOf(b) == ResultOf(r) && b.cleanups == r.cleanups
            && b.task.value.externalID == t.externalID && (b.output == r.output || b.output.None?)
  {
    ClosingIsOk(id, t, moment);
    if closing.revision == t.revision {
    } else if Unsubmitted(closing) {
      FinalizedTask(id, r, closing, Canceled, None, moment);
    } else {
      SavedTask(id, r, closing);
    }
  }

  lemma ListsIn(targets: seq<Target>, t: Target)
    requires t in targets
    ensures Lists(targets, t)
  {
    var i :| 0 <= i < |targets| && targets[i] == t;
    assert SameTarget(targets[i], t);
  }

  /** Adding the new request to rows whose task is already revoked. */
  lemma RequestAdded(id: Id, r: Rows, request: Cleanup)
    requires BaseOk(id, r) && Revoked(r) && ValidCleanup(request) && !request.scope.OrphanScope?
    requires request.task == id && request.owner == r.task.value.facts.owner
    requires request.targets == KnownTargets(r, r.task.value)
    requires request.account.Some? <==> request.scope.AccountScope?
    requires forall s :: s in r.cleanups && !s.OrphanScope? ==> ListsAll(r.cleanups[s], r, r.task.value)
    ensures RowsOk(id, r.(cleanups := r.cleanups[request.scope := request]))
  {
    var b := r.(cleanups := r.cleanups[request.scope := request]);
    forall s | s in b.cleanups ensures CleanupOk(id, b, s) {
      if s != request.scope { assert CleanupOk(id, r, s); }
    }
    if r.output.Some? { ListsIn(request.targets, OutputTarget(r.output.value)); }
    if r.task.value.externalID.Some? { ListsIn(request.targets, TaskTarget(r.task.value)); }
  }

  lemma AddingEnsures(r: Rows, settled: Rows, scope: Scope, request: Cleanup, account: Option<Id>)
    requires Steps(r, settled) && Revoked(settled) && ResultOf(settled) == ResultOf(r) && settled.cleanups == r.cleanups
    requires scope !in r.cleanups && request.account == account && !request.status.Complete?
    requires forall s :: s in r.cleanups ==> CleanupStep(r.cleanups[s], r.cleanups[s])
    ensures Ensured(r, settled.(cleanups := settled.cleanups[scope := request]), scope, account)
  {
  }

  lemma AddRequestKeeps(id: Id, r: Rows, t: Task, scope: Scope, source: Option<Id>, account: Option<Id>, moment: Time)
    requires RowsOk(id, r) && r.task == Some(t) && t.updatedAt <= moment && !scope.OrphanScope? && scope !in r.cleanups
    requires account.Some? <==> scope.AccountScope?
    requires AddRequest(r, t, scope, source, account, moment).Ok?
    ensures var b := AddRequest(r, t, scope, source, account, moment).value;
            RowsOk(id, b) && Ensured(r, b, scope, account)
  {
    var closing := Closing(t, moment).value;
    var settled := SaveClosing(r, t, closing, moment).value;
    SaveClosingIsOk(id, r, t, closing, moment);
    var request := MakeRequest(settled, scope, source, account, moment).value;
    MadeRequest(id, settled, scope, source, account, moment);
    RequestAdded(id, settled, request);
    AddingEnsures(r, settled, scope, request, account);
  }

  lemma MadeRequest(id: Id, r: Rows, scope: Scope, source: Option<Id>, account: Option<Id>, at: Time)
    requires MakeRequest(r, scope, source, account, at).Ok? && BaseOk(id, r)
    ensures var c := MakeRequest(r, scope, source, account, at).value;
            && r.task.Some? && ValidCleanup(c) && c.scope == scope && c.task == id
               && c.owner == r.task.value.facts.owner
            && c.targets == KnownTargets(r, r.task.value) && c.account == account && c.status.Pending?
  {
  }

  lemma AttachKeepsEnsured(id: Id, r: Rows, added: Rows, account: Id, at: Time)
    requires RowsOk(id, added) && Ensured(r, added, AccountScope, Some(account)) && LinkedTo(r, Some(account))
    requires AttachOrphan(added, account, at).Ok?
    ensures var b := AttachOrphan(added, account, at).value;
            RowsOk(id, b) && Ensured(r, b, AccountScope, Some(account))
  {
    var b := AttachOrphan(added, account, at).value;
    Attached(id, added, account, at);
    StepsTransitive(r, added, b);
    forall s | s in b.cleanups
      ensures b.cleanups[s].status.Complete? ==> s in r.cleanups && FinishesNothing(r.cleanups[s], b.cleanups[s])
      ensures b.cleanups[s].account in {if s in r.cleanups then r.cleanups[s].account else None, Some(account)}
    {
      assert s in added.cleanups;
    }
  }

  lemma AlreadyEnsured(id: Id, r: Rows, scope: Scope, account: Option<Id>)
    requires RowsOk(id, r) && r.task.Some? && !scope.OrphanScope? && scope in r.cleanups
    ensures Ensured(r, r, scope, account)
  {
    assert CleanupOk(id, r, scope);
  }

  lemma EnsureKeeps(id: Id, r: Rows, scope: Scope, source: Option<Id>, account: Option<Id>, at: Time)
    requires RowsOk(id, r) && r.task.Some? && !scope.OrphanScope?
    requires account.Some? <==> scope.AccountScope?
    requires account.Some? ==> LinkedTo(r, account)
    requires EnsureCleanup(r, scope, source, account, at).Ok?
    ensures var b := EnsureCleanup(r, scope, source, account, at).value;
            RowsOk(id, b) && Ensured(r, b, scope, account)
  {
    if scope in r.cleanups {
      AlreadyEnsured(id, r, scope, account);
      if account.Some? { AttachKeepsEnsured(id, r, r, account.value, at); }
    } else {
      var t := r.task.value;
      var moment := Max(at, t.updatedAt);
      assert Load(r) == Ok(t);
      AddRequestKeeps(id, r, t, scope, source, account, moment);
      if account.Some? {
        AttachKeepsEnsured(id, r, AddRequest(r, t, scope, source, account, moment).value, account.value, moment);
      }
    }
  }

  // -------------------------------------------------------------- late targets

  ghost predicate ListsEach(c: Cleanup, targets: seq<Target>) {
    forall u :: u in targets ==> Lists(c.targets, u)
  }

  ghost predicate Includes(c: Cleanup, d: Cleanup) {
    forall u :: Lists(c.targets, u) ==> Lists(d.targets, u)
  }

  lemma {:induction false} AddTargetsLists(c: Cleanup, targets: seq<Target>, at: Time)
    requires ValidCleanup(c) && AddTargets(c, targets, at).Ok?
    ensures var d := AddTargets(c, targets, at).value;
            && ValidCleanup(d) && CleanupStep(c, d) && Includes(c, d) && ListsEach(d, targets)
            && d.account == c.account && FinishesNothing(c, d)
            && (forall u :: u in d.targets ==> u in c.targets || u in targets)
    decreases |targets|
  {
    if targets != [] {
      AddTargetLists(c, targets[0], at);
      var e := AddTarget(c, targets[0], at).value;
      AddTargetsLists(e, targets[1..], at);
      CleanupStepTransitive(c, e, AddTargets(c, targets, at).value);
      assert targets == [targets[0]] + targets[1..];
    }
  }

  /** Manifests grew; nothing else changed. */
  ghost predicate Extended(a: Rows, b: Rows) {
    && b == a.(cleanups := b.cleanups) && b.cleanups.Keys == a.cleanups.Keys
    && forall s :: s in a.cleanups ==>
         && CleanupStep(a.cleanups[s], b.cleanups[s]) && Includes(a.cleanups[s], b.cleanups[s])
         && b.cleanups[s].account == a.cleanups[s].account && FinishesNothing(a.cleanups[s], b.cleanups[s])
  }

  ghost predicate OwnTargets(targets: seq<Target>, t: Task) {
    forall u :: u in targets && u.ProviderTarget? ==> t.externalID.Some? && u == TaskTarget(t)
  }

  lemma ExtendScopeKeeps(id: Id, r: Rows, scope: Scope, targets: seq<Target>, at: Time)
    requires BaseOk(id, r) && r.task.Some? && OwnTargets(targets, r.task.value)
    requires ExtendScope(r, scope, targets, at).Ok?
    ensures var b := ExtendScope(r, scope, targets, at).value;
            && BaseOk(id, b) && Extended(r, b) && (scope in b.cleanups ==> ListsEach(b.cleanups[scope], targets))
  {
    if scope in r.cleanups {
      assert CleanupOk(id, r, scope);
      AddTargetsLists(r.cleanups[scope], targets, Max(at, r.cleanups[scope].updatedAt));
      var b := ExtendScope(r, scope, targets, at).value;
      forall s | s in b.cleanups ensures CleanupOk(id, b, s) {
        assert CleanupOk(id, r, s);
      }
    }
  }

  lemma ExtendedTransitive(a: Rows, b: Rows, c: Rows)
    requires Extended(a, b) && Extended(b, c)
    ensures Extended(a, c)
  {
  }

  lemma ExtendRevokedKeeps(id: Id, r: Rows, targets: seq<Target>, at: Time)
    requires BaseOk(id, r) && r.task.Some? && OwnTargets(targets, r.task.value)
    requires ExtendRevoked(r, targets, at).Ok?
    ensures var b := ExtendRevoked(r, targets, at).value;
            && BaseOk(id, b) && Extended(r, b)
            && (forall s :: s in b.cleanups && !s.OrphanScope? ==> ListsEach(b.cleanups[s], targets))
  {
    var r1 := ExtendScope(r, TaskScope, targets, at).value;
    ExtendScopeKeeps(id, r, TaskScope, targets, at);
    var r2 := ExtendScope(r1, SourceScope, targets, at).value;
    ExtendScopeKeeps(id, r1, SourceScope, targets, at);
    ExtendScopeKeeps(id, r2, AccountScope, targets, at);
    ExtendedTransitive(r, r1, r2);
    ExtendedTransitive(r, r2, ExtendRevoked(r, targets, at).value);
  }

  lemma ExtendedIsLocal(a: Rows, b: Rows)
    requires Extended(a, b) && (a.task.Some? ==> Advances(a.task.value, a.task.value))
    ensures Local(a, b)
  {
  }

  lemma ExtendedCovered(a: Rows, b: Rows)
    requires Extended(a, b) && Covered(a)
    ensures Covered(b)
  {
  }

  /** Once every request has been synchronized, all known targets are listed,
      whatever was missing before. */
  lemma SyncKeeps(id: Id, r: Rows, t: Task, at: Time)
    requires BaseOk(id, r) && r.task == Some(t) && SyncTargets(r, t, at).Ok?
    requires t.revokedAt.Some? ==> Requested(r)
    requires t.revokedAt.None? || t.externalID.None? ==> Covered(r)
    ensures var b := SyncTargets(r, t, at).value;
            RowsOk(id, b) && Extended(r, b)
  {
    if t.revokedAt.Some? && t.externalID.Some? {
      var moment := Max(at, t.updatedAt);
      var known := KnownTargets(r, t);
      ExtendRevokedKeeps(id, r, known, moment);
      var e := ExtendRevoked(r, known, moment).value;
      ExtendScopeKeeps(id, e, OrphanScope, known, moment);
      var b := SyncTargets(r, t, at).value;
      ExtendedTransitive(r, e, b);
      assert TaskTarget(t) in known;
      assert r.output.Some? ==> OutputTarget(r.output.value) in known;
      forall s | s in b.cleanups && !s.OrphanScope? ensures ListsAll(b.cleanups[s], b, t) {
        assert ListsEach(e.cleanups[s], known) && Includes(e.cleanups[s], b.cleanups[s]);
      }
    }
  }

  lemma AddTargetToRevokedKeeps(id: Id, r: Rows, target: Target, at: Time)
    requires RowsOk(id, r) && Revoked(r) && target.ObjectTarget? && AddTargetToRevoked(r, target, at).Ok?
    ensures var b := AddTargetToRevoked(r, target, at).value;
            && RowsOk(id, b) && Extended(r, b)
            && (forall s :: s in b.cleanups && !s.OrphanScope? ==> Lists(b.cleanups[s].targets, target))
  {
    ExtendRevokedKeeps(id, r, [target], at);
    var b := AddTargetToRevoked(r, target, at).value;
    ExtendedCovered(r, b);
    forall s | s in b.cleanups && !s.OrphanScope? ensures Lists(b.cleanups[s].targets, target) {
      assert target in [target] && ListsEach(b.cleanups[s], [target]);
    }
  }

  /** One request is written; the task is not revoked, so nothing must be covered. */
  lemma OrphanWritten(id: Id, r: Rows, c: Cleanup)
    requires RowsOk(id, r) && r.task.Some? && c.scope.OrphanScope?
    requires CleanupOk(id, r.(cleanups := r.cleanups[OrphanScope := c]), OrphanScope)
    requires OrphanScope in r.cleanups ==>
               && CleanupStep(r.cleanups[OrphanScope], c) && c.account == r.cleanups[OrphanScope].account
               && FinishesNothing(r.cleanups[OrphanScope], c)
    requires OrphanScope !in r.cleanups ==> c.account.None? && !c.status.Complete?
    ensures var b := r.(cleanups := r.cleanups[OrphanScope := c]); RowsOk(id, b) && Local(r, b)
  {
    var b := r.(cleanups := r.cleanups[OrphanScope := c]);
    forall s | s in b.cleanups ensures CleanupOk(id, b, s) {
      if s in r.cleanups && !s.OrphanScope? { assert CleanupOk(id, r, s); }
    }
    forall s | s in r.cleanups ensures CleanupStep(r.cleanups[s], b.cleanups[s]) {
      assert CleanupOk(id, r, s);
    }
  }

  lemma RecordOrphanKeeps(id: Id, r: Rows, t: Task, target: Target, at: Time)
    requires RowsOk(id, r) && r.task == Some(t) && target.ObjectTarget? && RecordOrphan(r, t, target, at).Ok?
    ensures var b := RecordOrphan(r, t, target, at).value;
            && RowsOk(id, b) && Local(r, b) && OrphanScope in b.cleanups
               && Lists(b.cleanups[OrphanScope].targets, target)
  {
    var b := RecordOrphan(r, t, target, at).value;
    if OrphanScope in r.cleanups {
      assert CleanupOk(id, r, OrphanScope);
      AddTargetLists(r.cleanups[OrphanScope], target, at);
    } else {
      ListsIn(b.cleanups[OrphanScope].targets, target);
    }
    OrphanWritten(id, r, b.cleanups[OrphanScope]);
  }
}
