/** The durable cleanup request of a generation task: what must still be removed,
    which attempt is removing it, and how a request is reopened when a target
    turns up late. A request is identified by its task and its scope (the unique
    index of its table), so its own uuid is not kept. */
module GenerationCleanup {
  import opened Base
  import opened GenerationTask

  datatype Scope = TaskScope | SourceScope | AccountScope | OrphanScope

  /** `InProgress` is the stored status running, `Faulted` the stored status failed. */
  datatype CleanupStatus = Pending | InProgress | Complete | Faulted

  datatype StableError = WorkerExpired | AttemptsExhausted | IdentityMismatch | Reported(code: Id)

  datatype Target =
    | ObjectTarget(id: Id, key: ObjectKey, version: Id)
    | ProviderTarget(id: Id, provider: Option<Id>)

  datatype Cleanup = Cleanup(
    owner: Id, task: Id, scope: Scope, source: Option<Id>, account: Option<Id>,
    status: CleanupStatus, revokedAt: Option<Time>, completedAt: Option<Time>, fault: Option<StableError>,
    attempts: nat, nextAttemptAt: Option<Time>, targets: seq<Target>, createdAt: Time, updatedAt: Time)

  const MAX_CLEANUP_ATTEMPTS: nat := 100

  /** Two entries for the same external side effect; a provider entry is named
      by the provider task alone. */
  predicate SameTarget(a: Target, b: Target) {
    a == b || (a.ProviderTarget? && b.ProviderTarget? && a.id == b.id)
  }

  predicate Lists(targets: seq<Target>, t: Target) {
    exists i :: 0 <= i < |targets| && SameTarget(targets[i], t)
  }

  predicate Distinct(targets: seq<Target>) {
    forall i, j :: 0 <= i < j < |targets| ==> !SameTarget(targets[i], targets[j])
  }

  /** An object target names the task's own output key. */
  predicate TargetFits(t: Target, owner: Id, task: Id) {
    t.ObjectTarget? ==> t.key.owner == owner && t.key.task == task
  }

  predicate ValidCleanup(c: Cleanup) {
    && 0 < c.createdAt <= c.updatedAt && c.attempts <= MAX_CLEANUP_ATTEMPTS
    && (if c.scope.OrphanScope? then c.revokedAt.None? && c.source.None? && c.targets != []
        else c.revokedAt.Some? && 0 < c.revokedAt.value <= c.updatedAt)
    && (c.completedAt.Some? <==> c.status.Complete?)
    && (c.completedAt.Some? ==> c.createdAt <= c.completedAt.value <= c.updatedAt)
    && (c.nextAttemptAt.Some? ==>
          c.createdAt <= c.nextAttemptAt.value && !c.status.Complete? && !c.status.InProgress?)
    && (c.status.Faulted? <==> c.fault.Some?)
    && (forall t :: t in c.targets ==>
          TargetFits(t, c.owner, c.task) && (c.scope.OrphanScope? ==> t.ObjectTarget?))
    && Distinct(c.targets)
  }

  function NewCleanup(t: Task, scope: Scope, targets: seq<Target>, at: Time): Result<Cleanup, Error> {
    if !Valid(t) || scope.OrphanScope? || t.revokedAt.None? || at == 0 then Err(InvalidCleanup)
    else
      var c := Cleanup(t.facts.owner, t.facts.id, scope, None, None, Pending, t.revokedAt, None, None, 0, None, targets,
                       at, at);
      if ValidCleanup(c) then Ok(c) else Err(InvalidCleanup)
  }

  function NewOrphan(t: Task, target: Target, at: Time): Result<Cleanup, Error> {
    if !Valid(t) || t.revokedAt.Some? || !target.ObjectTarget? || at == 0 then Err(InvalidCleanup)
    else
      var c := Cleanup(t.facts.owner, t.facts.id, OrphanScope, None, None, Pending, None, None, None, 0, None, [target],
                       at, at);
      if ValidCleanup(c) then Ok(c) else Err(InvalidCleanup)
  }

  /** Claims the request for one worker; a complete request is returned as it is. */
  function Begin(c: Cleanup, at: Time): Result<Cleanup, Error> {
    if !ValidCleanup(c) || at == 0 then Err(InvalidCleanup)
    else if c.status.Complete? then Ok(c)
    else if c.status.InProgress? then Err(CleanupInProgress)
    else if c.nextAttemptAt.Some? && at < c.nextAttemptAt.value then Err(CleanupNotReady)
    else if c.attempts >= MAX_CLEANUP_ATTEMPTS then Err(CleanupExhausted)
    else if at < c.updatedAt then Err(InvalidCleanup)
    else Ok(c.(status := InProgress, attempts := c.attempts + 1, nextAttemptAt := None, fault := None, updatedAt := at))
  }

  function Exhaust(c: Cleanup, at: Time): Result<Cleanup, Error> {
    if !ValidCleanup(c) || !c.status.InProgress? || c.attempts < MAX_CLEANUP_ATTEMPTS || at == 0
      || at < c.updatedAt then
      Err(InvalidCleanup)
    else Ok(c.(status := Faulted, fault := Some(AttemptsExhausted), nextAttemptAt := None, updatedAt := at))
  }

  /** Takes an unsafe request out of automatic retries without deleting anything. */
  function RejectUnsafeTarget(c: Cleanup, at: Time): Result<Cleanup, Error> {
    if !ValidCleanup(c) || c.status.Complete? || at == 0 || at < c.updatedAt then Err(InvalidCleanup)
    else Ok(c.(status := Faulted, fault := Some(IdentityMismatch), nextAttemptAt := None, updatedAt := at))
  }

  function Finish(c: Cleanup, at: Time): Result<Cleanup, Error> {
    if !ValidCleanup(c) || at == 0 then Err(InvalidCleanup)
    else if c.status.Complete? then Ok(c)
    else if !c.status.InProgress? || at < c.updatedAt then Err(InvalidCleanup)
    else Ok(c.(status := Complete, completedAt := Some(at), nextAttemptAt := None, fault := None, updatedAt := at))
  }

  function Fail(c: Cleanup, at: Time, fault: StableError, retryAt: Time): Result<Cleanup, Error> {
    if !ValidCleanup(c) || !c.status.InProgress? || at == 0 || at < c.updatedAt then Err(InvalidCleanup)
    else if c.attempts >= MAX_CLEANUP_ATTEMPTS then Exhaust(c, at)
    else if retryAt < at then Err(InvalidCleanup)
    else Ok(c.(status := Faulted, fault := Some(fault), nextAttemptAt := Some(retryAt), updatedAt := at))
  }

  /** A late target reopens the request, so that no earlier claim can complete over it. */
  function AddTarget(c: Cleanup, t: Target, at: Time): Result<Cleanup, Error> {
    if !ValidCleanup(c) || at == 0 || !TargetFits(t, c.owner, c.task) then Err(InvalidCleanup)
    else if Lists(c.targets, t) then Ok(c)
    else if at < c.updatedAt then Err(InvalidCleanup)
    else
      var d := c.(targets := c.targets + [t], status := Pending, completedAt := None, fault := None,
                  nextAttemptAt := None, updatedAt := at);
      if ValidCleanup(d) then Ok(d) else Err(InvalidCleanup)
  }

  /** How a stored request may change, over any number of transactions: the
      relation is reflexive and transitive. Its last three lines say that within
      one attempt the manifest is fixed from the claim to the completion, and
      that a complete request only ever reopens because its manifest grew. */
  predicate CleanupStep(a: Cleanup, b: Cleanup) {
    && b.owner == a.owner && b.task == a.task && b.scope == a.scope
    && b.source == a.source && b.revokedAt == a.revokedAt && b.createdAt == a.createdAt
    && (a.account.Some? ==> b.account == a.account)
    && a.attempts <= b.attempts && a.updatedAt <= b.updatedAt && a.targets <= b.targets
    && (b.status.InProgress? && a.attempts == b.attempts ==> a.status.InProgress? && a.targets == b.targets)
    && (b.status.Complete? && a.attempts == b.attempts ==>
          (a.status.Complete? || a.status.InProgress?) && a.targets == b.targets)
    && (a.status.Complete? && !b.status.Complete? ==> |a.targets| < |b.targets|)
  }

  /** Not the completion of a claim: what is complete now was complete before. */
  predicate FinishesNothing(a: Cleanup, b: Cleanup) {
    b.status.Complete? ==> a.status.Complete? && b.attempts == a.attempts
  }

  lemma CleanupStepTransitive(a: Cleanup, b: Cleanup, c: Cleanup)
    requires CleanupStep(a, b) && CleanupStep(b, c)
    ensures CleanupStep(a, c)
  {
  }

  /** Adding a target keeps the request well formed and lists the target. */
  lemma AddTargetLists(c: Cleanup, t: Target, at: Time)
    requires AddTarget(c, t, at).Ok?
    ensures var d := AddTarget(c, t, at).value;
            && ValidCleanup(d) && CleanupStep(c, d) && Lists(d.targets, t) && d.account == c.account
            && (forall u :: Lists(c.targets, u) ==> Lists(d.targets, u))
            && (forall u :: u in d.targets ==> u in c.targets || u == t)
  {
    var d := AddTarget(c, t, at).value;
    if !Lists(c.targets, t) {
      assert d.targets[|c.targets|] == t;
      forall u | Lists(c.targets, u) ensures Lists(d.targets, u) {
        var i :| 0 <= i < |c.targets| && SameTarget(c.targets[i], u);
        assert d.targets[i] == c.targets[i];
      }
    }
  }
}
