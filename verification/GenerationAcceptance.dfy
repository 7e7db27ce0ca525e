/** Idempotent acceptance: a submission that is retried, in whatever order with
    everything else, never becomes a second task. */
module GenerationAcceptance {
  import opened Base
  import opened GenerationTask
  import opened GenerationRows
  import opened GenerationStore
  import opened GenerationStoreInvariant
  import opened GenerationStoreProofs
  import opened GenerationStoreSteps
  import opened GenerationRuns
  import opened GenerationGuarantees
  import opened GenerationQuota

  /** The same client request: one owner, one purpose, one idempotency key. */
  predicate SameKey(a: Facts, b: Facts) {
    a.owner == b.owner && a.purpose == b.purpose && a.idempotency == b.idempotency
  }

  predicate SameContent(a: Facts, b: Facts) { a.dedupe == b.dedupe && a.policyVersion == b.policyVersion }

  predicate Submitted(rows: map<Id, Rows>, t: Id, f: Facts) {
    t in rows && rows[t].task.Some? && SameKey(rows[t].task.value.facts, f)
  }

  /** No two tasks answer the same request. */
  ghost predicate KeysUnique(rows: map<Id, Rows>) {
    forall t, u :: t in rows && u in rows && SameRequest(rows[t], rows[u]) ==> t == u
  }

  predicate SameRequest(a: Rows, b: Rows) {
    a.task.Some? && b.task.Some? && SameKey(a.task.value.facts, b.task.value.facts)
  }

  /** A submission under a known key is a replay or a conflict, never new work. */
  lemma KnownKey(rows: map<Id, Rows>, f: Facts, p: Policy, at: Time, t: Id)
    requires Submitted(rows, t, f) && Classify(rows, f, p, at).Ok?
    ensures var m := Classify(rows, f, p, at).value;
            (m.Conflict? || m.Replay?) && (m.Replay? ==> SameContent(rows[t].task.value.facts, f))
  {
    assert t in Prior(rows, f);
  }

  lemma KnownKeyAddsNothing(db: Db, f: Facts, p: Policy, t: Id)
    requires Submitted(db.rows, t, f) && Accept(db, f, p).Ok?
    ensures Accept(db, f, p).value == db && SameContent(db.rows[t].task.value.facts, f)
  {
    KnownKey(db.rows, f, p, f.createdAt, t);
  }

  lemma AcceptedKeepsKeys(db: Db, f: Facts, p: Policy)
    requires Core(db) && KeysUnique(db.rows) && Accept(db, f, p).Ok?
    ensures KeysUnique(Accept(db, f, p).value.rows)
  {
    AcceptShape(db, f, p);
    var b := Accept(db, f, p).value;
    if b != db {
      forall t | t in db.rows ensures !Submitted(db.rows, t, f) {
        if Submitted(db.rows, t, f) { KnownKeyAddsNothing(db, f, p, t); }
      }
      NewKeyIsUnique(db.rows, f);
    }
  }

  lemma NewKeyIsUnique(rows: map<Id, Rows>, f: Facts)
    requires KeysUnique(rows) && forall t :: t in rows ==> !Submitted(rows, t, f)
    ensures KeysUnique(rows[f.id := Rows(Some(NewTask(f)), NewHold(f), None, map[], [])])
  {
    forall t | t in rows ensures rows[t].task.None? || !SameKey(rows[t].task.value.facts, f) {
      assert !Submitted(rows, t, f);
    }
  }

  lemma LaterKeepsKeys(a: Db, b: Db)
    requires KeysUnique(a.rows) && Later(a, b) && b.rows.Keys == a.rows.Keys
    ensures KeysUnique(b.rows)
  {
    forall t, u | t in b.rows && u in b.rows && SameRequest(b.rows[t], b.rows[u]) ensures t == u {
      assert Follows(a.rows[t], b.rows[t]) && Follows(a.rows[u], b.rows[u]);
      assert SameRequest(a.rows[t], a.rows[u]);
    }
  }

  lemma StepKeepsKeys(db: Db, op: Op, timeout: Time)
    requires Core(db) && KeysUnique(db.rows)
    ensures KeysUnique(Step(db, op, timeout).rows)
  {
    if Apply(db, op, timeout).Ok? {
      if op.Request? {
        AcceptedKeepsKeys(db, op.facts, op.admission);
      } else {
        ApplyLater(db, op, timeout, Apply(db, op, timeout).value);
        LaterKeepsKeys(db, Apply(db, op, timeout).value);
      }
    }
  }

  lemma {:induction false} RunKeepsKeys(db: Db, ops: seq<Op>, timeout: Time)
    requires Core(db) && KeysUnique(db.rows)
    ensures KeysUnique(Run(db, ops, timeout).rows)
    decreases |ops|
  {
    if ops != [] {
      StepKeepsKeys(db, ops[0], timeout);
      StepKeepsCore(db, ops[0], timeout);
      RunKeepsKeys(Step(db, ops[0], timeout), ops[1..], timeout);
    }
  }

  /** In every reachable state a client request has at most one task. */
  lemma OneTaskPerKey(ops: seq<Op>, timeout: Time, t: Id, u: Id)
    ensures var rows := Run(EMPTY, ops, timeout).rows;
            t in rows && u in rows && SameRequest(rows[t], rows[u]) ==> t == u
  {
    EmptyIsCore();
    RunKeepsKeys(EMPTY, ops, timeout);
  }

  /** After a task was accepted, and whatever else happened since, a retry of its
      request either fails or changes nothing at all: no second task, no second
      hold; and it succeeds only with the same content. */
  lemma RetriesAreFree(db: Db, f: Facts, p: Policy, ops: seq<Op>, timeout: Time, retry: Facts, q: Policy)
    requires Core(db) && Accept(db, f, p).Ok? && Accept(db, f, p).value != db && SameKey(retry, f)
    ensures var c := Run(Accept(db, f, p).value, ops, timeout);
            f.id in c.rows && (c.rows[f.id].task.Some? && Accept(c, retry, q).Ok? ==>
                                 Accept(c, retry, q).value == c && SameContent(f, retry))
  {
    AcceptShape(db, f, p);
    AcceptKeepsCore(db, f, p);
    var b := Accept(db, f, p).value;
    RunLater(b, ops, timeout);
    RetryAfter(b, Run(b, ops, timeout), f, retry, q);
  }

  lemma RetryAfter(b: Db, c: Db, f: Facts, retry: Facts, q: Policy)
    requires Later(b, c) && f.id in b.rows && b.rows[f.id].task == Some(NewTask(f)) && SameKey(retry, f)
    ensures f.id in c.rows
    ensures c.rows[f.id].task.Some? && Accept(c, retry, q).Ok? ==>
              Accept(c, retry, q).value == c && SameContent(f, retry)
  {
    assert Follows(b.rows[f.id], c.rows[f.id]);
    if c.rows[f.id].task.Some? && Accept(c, retry, q).Ok? { KnownKeyAddsNothing(c, retry, q, f.id); }
  }

  /** A task whose content matches under another key, which succeeded, and whose
      output row is gone. */
  predicate OutputMissing(rows: map<Id, Rows>, f: Facts, p: Policy) {
    exists t :: t in Prior(rows, f) && NeedsOutput(rows[t], f, p) && rows[t].output.None?
  }

  /** An active user's retry with the same content succeeds if and only if it is
      well formed and no earlier success with that content lost its output. */
  lemma ReplayIff(db: Db, f: Facts, p: Policy, t: Id)
    requires KeysUnique(db.rows) && IsActive(db, f.owner)
    requires Submitted(db.rows, t, f) && SameContent(db.rows[t].task.value.facts, f)
    ensures Accept(db, f, p) == Ok(db) <==> ValidFacts(f) && !OutputMissing(db.rows, f, p)
  {
    assert t in Prior(db.rows, f);
    forall u | u in Prior(db.rows, f) && db.rows[u].task.value.facts.idempotency == f.idempotency ensures u == t {
      assert SameRequest(db.rows[u], db.rows[t]);
    }
  }
}
