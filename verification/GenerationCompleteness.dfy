/** A cleanup request is complete only if everything it lists was handed to the
    very attempt that completed it. */
module GenerationCompleteness {
  import opened Base
  import opened GenerationTask
  import opened GenerationCleanup
  import opened GenerationRows
  import opened Media
  import opened GenerationStore
  import opened GenerationStoreInvariant
  import opened GenerationStoreProofs
  import opened GenerationStoreErasure
  import opened GenerationStoreSteps
  import opened GenerationRuns
  import opened GenerationGuarantees

  // --------------------------------------------- one transaction completes one claim

  /** Whatever is complete afterwards was complete or in progress before, in the
      same attempt. */
  ghost predicate CompletesClaims(a: Rows, b: Rows) {
    forall s :: s in b.cleanups && b.cleanups[s].status.Complete? ==>
      && s in a.cleanups && a.cleanups[s].attempts == b.cleanups[s].attempts
      && (a.cleanups[s].status.Complete? || a.cleanups[s].status.InProgress?)
  }

  ghost predicate AllCompleteClaims(a: map<Id, Rows>, b: map<Id, Rows>) {
    forall t :: t in b ==> CompletesClaims(if t in a then a[t] else NO_ROWS, b[t])
  }

  lemma UntouchedCompletes(a: map<Id, Rows>, b: map<Id, Rows>)
    requires a.Keys == b.Keys && Untouched(a, b)
    ensures AllCompleteClaims(a, b)
  {
    forall t | t in b ensures CompletesClaims(a[t], b[t]) { assert Uncompleted(a[t], b[t]); }
  }

  lemma SameCompletes(rows: map<Id, Rows>)
    ensures AllCompleteClaims(rows, rows)
  {
    UntouchedCompletes(rows, rows);
  }

  /** Erasing only removes requests. */
  lemma FinalizeCompletes(a: map<Id, Rows>, db: Db, user: Id, at: Time)
    requires Core(db) && FinalizeIfReady(db, user, at).Ok? && AllCompleteClaims(a, db.rows)
    ensures AllCompleteClaims(a, FinalizeIfReady(db, user, at).value.rows)
  {
    var b := FinalizeIfReady(db, user, at).value;
    if b != db {
      forall t | t in b.rows ensures CompletesClaims(if t in a then a[t] else NO_ROWS, b.rows[t]) {
        ErasedRow(db, t, user);
        assert CompletesClaims(if t in a then a[t] else NO_ROWS, db.rows[t]);
      }
    }
  }

  lemma OneCompletes(rows: map<Id, Rows>, t: Id, r: Rows)
    requires t in rows && CompletesClaims(rows[t], r)
    ensures AllCompleteClaims(rows, rows[t := r])
  {
    SameCompletes(rows);
    forall u | u in rows[t := r] ensures CompletesClaims(if u in rows then rows[u] else NO_ROWS, rows[t := r][u]) {
      assert CompletesClaims(rows[u], rows[u]);
    }
  }

  lemma CleanupCompletes(db: Db, claimed: Cleanup, at: Time)
    requires Core(db) && CompleteCleanup(db, claimed, at).Ok?
    ensures AllCompleteClaims(db.rows, CompleteCleanup(db, claimed, at).value.rows)
  {
    var t := claimed.task;
    var r := CompleteTaskCleanup(db.rows[t], claimed, at).value;
    CompletedRowKeepsCore(db, claimed, at);
    CompletedRow(db.rows[t], claimed, at);
    OneCompletes(db.rows, t, r);
    if r.cleanups[claimed.scope].account.Some? {
      FinalizeCompletes(db.rows, db.(rows := db.rows[t := r]), r.cleanups[claimed.scope].owner, at);
    }
  }

  lemma CompletedRow(r: Rows, claimed: Cleanup, at: Time)
    requires CompleteTaskCleanup(r, claimed, at).Ok?
    ensures CompletesClaims(r, CompleteTaskCleanup(r, claimed, at).value)
  {
  }

  lemma RemovalCompletes(db: Db, event: Id, media: Id, at: Time)
    requires Core(db) && CompleteDeletion(db, event, media, at).Ok?
    ensures AllCompleteClaims(db.rows, CompleteDeletion(db, event, media, at).value.rows)
  {
    SameCompletes(db.rows);
    if (event, MediaDelete) !in db.files.receipts {
      var files := FinishDeletion(db.files, event, media, at).value;
      FinishedAssetKeepsCore(db, event, media, at);
      FinalizeCompletes(db.rows, db.(files := files), files.media[media].owner, at);
    }
  }

  lemma LeavingCompletes(db: Db, user: Id, request: Id, at: Time)
    requires Core(db) && BeginAccountDeletion(db, user, request, at).Ok?
    ensures AllCompleteClaims(db.rows, BeginAccountDeletion(db, user, request, at).value.rows)
  {
    var b := CloseAccount(db, user, request, at).value;
    ClosedTables(db, user, request, at);
    ClosingKeepsCore(db, b, user, request);
    UntouchedCompletes(db.rows, b.rows);
    if Remaining(db.files, user) == {} { FinalizeCompletes(db.rows, b, user, at); }
  }

  lemma RevocationCompletes(db: Db, op: Op, timeout: Time, b: Db)
    requires op.EndConsent? || op.Remove? || op.RevokeTask? || op.RevokeSource?
    requires Core(db) && Apply(db, op, timeout) == Ok(b)
    ensures AllCompleteClaims(db.rows, b.rows)
  {
    match op {
      case EndConsent(user, consent, at) => WithdrawKeepsCore(db, user, consent, at);
      case Remove(user, media, blocked, at) => DeleteKeepsCore(db, user, media, blocked, at);
      case RevokeTask(user, task, at) => TaskCleanupKeepsCore(db, user, task, at);
      case RevokeSource(user, media, at) => SourceCleanupKeepsCore(db, user, {media}, at);
    }
    UntouchedCompletes(db.rows, b.rows);
  }

  lemma WorkCompletes(db: Db, task: Id, op: TaskOp, timeout: Time)
    requires Core(db) && WorkOn(db, task, op, timeout).Ok?
    ensures AllCompleteClaims(db.rows, WorkOn(db, task, op, timeout).value.rows)
  {
    WorkKeepsCore(db, task, op, timeout);
    UntouchedCompletes(db.rows, WorkOn(db, task, op, timeout).value.rows);
  }

  lemma PublishCompletes(db: Db, lease: Lease, asset: Asset, timeout: Time, at: Time)
    requires Core(db) && PublishOn(db, lease, asset, timeout, at).Ok?
    ensures AllCompleteClaims(db.rows, PublishOn(db, lease, asset, timeout, at).value.rows)
  {
    PublishKeepsCore(db, lease, asset, timeout, at);
    UntouchedCompletes(db.rows, PublishOn(db, lease, asset, timeout, at).value.rows);
  }

  lemma RequestCompletes(db: Db, f: Facts, p: Policy)
    requires Core(db) && Accept(db, f, p).Ok?
    ensures AllCompleteClaims(db.rows, Accept(db, f, p).value.rows)
  {
    SameCompletes(db.rows);
  }

  lemma UserOpCompletes(db: Db, op: Op, timeout: Time, b: Db)
    requires UserOp(op) && Core(db) && Apply(db, op, timeout) == Ok(b)
    ensures AllCompleteClaims(db.rows, b.rows)
  {
    UserOpShape(db, op, timeout, b);
    SameCompletes(db.rows);
  }

  lemma FinisherCompletes(db: Db, op: Op, timeout: Time, b: Db)
    requires op.FinishRemoval? || op.FinishCleanup? || op.LeaveAccount?
    requires Core(db) && Apply(db, op, timeout) == Ok(b)
    ensures AllCompleteClaims(db.rows, b.rows)
  {
    match op
    case FinishRemoval(event, media, at) => RemovalCompletes(db, event, media, at);
    case FinishCleanup(claimed, at) => CleanupCompletes(db, claimed, at);
    case LeaveAccount(user, request, at) => LeavingCompletes(db, user, request, at);
  }

  /** No transaction completes a request that was not claimed in the same attempt. */
  lemma StepCompletes(db: Db, op: Op, timeout: Time)
    requires Core(db)
    ensures AllCompleteClaims(db.rows, Step(db, op, timeout).rows)
  {
    if Apply(db, op, timeout).Err? {
      SameCompletes(db.rows);
    } else if UserOp(op) {
      UserOpCompletes(db, op, timeout, Apply(db, op, timeout).value);
    } else if op.FinishRemoval? || op.FinishCleanup? || op.LeaveAccount? {
      FinisherCompletes(db, op, timeout, Apply(db, op, timeout).value);
    } else if op.EndConsent? || op.Remove? || op.RevokeTask? || op.RevokeSource? {
      RevocationCompletes(db, op, timeout, Apply(db, op, timeout).value);
    } else {
      match op
      case Request(facts, admission) => RequestCompletes(db, facts, admission);
      case Work(task, taskOp) => WorkCompletes(db, task, taskOp, timeout);
      case Publish(lease, asset, at) => PublishCompletes(db, lease, asset, timeout, at);
    }
  }

  // ------------------------------------------------------------------ whole runs

  /** A run with all its states, from the empty tables. */
  ghost predicate Trace(states: seq<Db>, ops: seq<Op>, timeout: Time) {
    && |states| == |ops| + 1 && states[0] == EMPTY
    && forall k :: 0 <= k < |ops| ==> states[k + 1] == Step(states[k], ops[k], timeout)
  }

  lemma TraceStart(states: seq<Db>, ops: seq<Op>, timeout: Time)
    requires Trace(states, ops, timeout)
    ensures states != [] && Core(states[0])
  {
    EmptyIsCore();
  }

  lemma TraceStep(states: seq<Db>, ops: seq<Op>, timeout: Time, k: nat)
    requires Trace(states, ops, timeout) && k < |ops| && Core(states[k])
    ensures Core(states[k + 1])
  {
    StepKeepsCore(states[k], ops[k], timeout);
    assert states[k + 1] == Step(states[k], ops[k], timeout);
  }

  lemma {:induction false} TraceIsCore(states: seq<Db>, ops: seq<Op>, timeout: Time, k: nat)
    requires Trace(states, ops, timeout) && k < |states|
    ensures Core(states[k])
    decreases k
  {
    if k == 0 {
      TraceStart(states, ops, timeout);
    } else {
      TraceIsCore(states, ops, timeout, k - 1);
      TraceStep(states, ops, timeout, k - 1);
    }
  }

  /** The request (t, s) of a state. */
  predicate HasRequest(db: Db, t: Id, s: Scope) { t in db.rows && s in db.rows[t].cleanups }

  /** Between these two states a worker was handed the request: it starts the given
      attempt with the given manifest. */
  predicate HandedOut(before: Db, after: Db, t: Id, s: Scope, attempts: nat, targets: seq<Target>) {
    && HasRequest(after, t, s)
    && var c := after.rows[t].cleanups[s];
       && c.status.InProgress? && c.attempts == attempts && c.targets == targets
       && (HasRequest(before, t, s) ==> before.rows[t].cleanups[s].attempts < attempts)
  }

  /** Attempts never go back, and within an attempt a claim keeps its manifest. */
  lemma LastStep(before: Db, op: Op, timeout: Time, t: Id, s: Scope)
    requires Core(before) && HasRequest(Step(before, op, timeout), t, s) && HasRequest(before, t, s)
    ensures var a, b := before.rows[t].cleanups[s], Step(before, op, timeout).rows[t].cleanups[s];
            && a.attempts <= b.attempts
            && ((b.status.Complete? || b.status.InProgress?) && a.attempts == b.attempts ==>
                  (a.status.Complete? || a.status.InProgress?) && a.targets == b.targets)
  {
    if Apply(before, op, timeout).Ok? {
      ApplyLater(before, op, timeout, Apply(before, op, timeout).value);
      assert Follows(before.rows[t], Step(before, op, timeout).rows[t]);
    }
  }

  /** A request that is complete or in progress after a step either was so before,
      in the same attempt and with the same manifest, or was handed out by it. */
  lemma StepHandsOut(before: Db, op: Op, timeout: Time, t: Id, s: Scope)
    requires Core(before) && HasRequest(Step(before, op, timeout), t, s)
    requires var c := Step(before, op, timeout).rows[t].cleanups[s]; c.status.Complete? || c.status.InProgress?
    ensures var after := Step(before, op, timeout);
            var c := after.rows[t].cleanups[s];
            if HasRequest(before, t, s) && before.rows[t].cleanups[s].attempts == c.attempts then
              var a := before.rows[t].cleanups[s];
              (a.status.Complete? || a.status.InProgress?) && a.targets == c.targets
            else HandedOut(before, after, t, s, c.attempts, c.targets)
  {
    StepCompletes(before, op, timeout);
    var after := Step(before, op, timeout);
    assert CompletesClaims(if t in before.rows then before.rows[t] else NO_ROWS, after.rows[t]);
    if HasRequest(before, t, s) { LastStep(before, op, timeout, t, s); }
  }

  /** What one step may do to the request (t, s): it is handed out, or the present
      claim is an older one. */
  ghost predicate HandsOutOrKeeps(a: Db, b: Db, t: Id, s: Scope) {
    HasRequest(b, t, s) ==>
      var c := b.rows[t].cleanups[s];
      (c.status.Complete? || c.status.InProgress?) ==>
        if HasRequest(a, t, s) && a.rows[t].cleanups[s].attempts == c.attempts then
          var d := a.rows[t].cleanups[s]; (d.status.Complete? || d.status.InProgress?) && d.targets == c.targets
        else HandedOut(a, b, t, s, c.attempts, c.targets)
  }

  lemma TraceHandsOut(states: seq<Db>, ops: seq<Op>, timeout: Time, t: Id, s: Scope)
    requires Trace(states, ops, timeout)
    ensures forall k :: 0 <= k < |ops| ==> HandsOutOrKeeps(states[k], states[k + 1], t, s)
  {
    forall k | 0 <= k < |ops| ensures HandsOutOrKeeps(states[k], states[k + 1], t, s) {
      TraceIsCore(states, ops, timeout, k);
      var b := Step(states[k], ops[k], timeout);
      assert states[k + 1] == b;
      if HasRequest(b, t, s) && (b.rows[t].cleanups[s].status.Complete? || b.rows[t].cleanups[s].status.InProgress?) {
        StepHandsOut(states[k], ops[k], timeout, t, s);
      }
    }
  }

  lemma {:induction false} LastHandOut(states: seq<Db>, n: nat, t: Id, s: Scope) returns (i: nat)
    requires n < |states| && !HasRequest(states[0], t, s) && HasRequest(states[n], t, s)
    requires var c := states[n].rows[t].cleanups[s]; c.status.Complete? || c.status.InProgress?
    requires forall k :: 0 <= k < n ==> HandsOutOrKeeps(states[k], states[k + 1], t, s)
    ensures i < n
    ensures var c := states[n].rows[t].cleanups[s]; HandedOut(states[i], states[i + 1], t, s, c.attempts, c.targets)
    decreases n
  {
    i := n - 1;
    assert HandsOutOrKeeps(states[i], states[i + 1], t, s);
    if HasRequest(states[i], t, s) && states[i].rows[t].cleanups[s].attempts == states[n].rows[t].cleanups[s].attempts {
      i := LastHandOut(states, i, t, s);
    }
  }

  /** For every run and every request that is complete (or being worked on) in its
      n-th state, there is an earlier step that handed exactly the request's present
      targets to its present attempt. A target discovered later therefore never
      hides behind a completion. */
  lemma CompleteWasHandedOut(states: seq<Db>, ops: seq<Op>, timeout: Time, n: nat, t: Id, s: Scope)
    returns (i: nat)
    requires Trace(states, ops, timeout) && n < |states| && HasRequest(states[n], t, s)
    requires var c := states[n].rows[t].cleanups[s]; c.status.Complete? || c.status.InProgress?
    ensures i < n
    ensures var c := states[n].rows[t].cleanups[s]; HandedOut(states[i], states[i + 1], t, s, c.attempts, c.targets)
  {
    TraceHandsOut(states, ops, timeout, t, s);
    i := LastHandOut(states, n, t, s);
  }
}
