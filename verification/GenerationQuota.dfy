/** Quota: what every transaction does to the usage snapshot that admission is
    checked against. */
module GenerationQuota {
  import opened Base
  import opened GenerationTask
  import opened GenerationRows
  import opened GenerationRowsInvariant
  import opened GenerationStore
  import opened GenerationStoreInvariant
  import opened GenerationStoreSteps
  import opened GenerationRuns
  import opened GenerationGuarantees

  predicate AtMost(u: Usage, v: Usage) { u.tasks <= v.tasks && u.units <= v.units && u.minorUnits <= v.minorUnits }

  /** Later rows of a task never use more than earlier ones. */
  lemma FollowsUsesNoMore(a: Rows, b: Rows, owner: Id, purpose: Purpose)
    requires Follows(a, b)
    ensures ActiveOf(b, owner, purpose) <= ActiveOf(a, owner, purpose)
    ensures UnitsOf(b, owner, purpose) <= UnitsOf(a, owner, purpose)
    ensures MinorUnitsOf(b, owner, purpose) <= MinorUnitsOf(a, owner, purpose)
  {
  }

  lemma LaterUsesNoMore(a: Db, b: Db, owner: Id, purpose: Purpose)
    requires Later(a, b) && b.rows.Keys == a.rows.Keys
    ensures AtMost(UsageOf(b.rows, owner, purpose), UsageOf(a.rows, owner, purpose))
  {
    forall t | t in b.rows
      ensures ActiveOf(b.rows[t], owner, purpose) <= ActiveOf(a.rows[t], owner, purpose)
      ensures UnitsOf(b.rows[t], owner, purpose) <= UnitsOf(a.rows[t], owner, purpose)
      ensures MinorUnitsOf(b.rows[t], owner, purpose) <= MinorUnitsOf(a.rows[t], owner, purpose)
    {
      FollowsUsesNoMore(a.rows[t], b.rows[t], owner, purpose);
    }
    SumMonotone(ActiveColumn(b.rows, owner, purpose), ActiveColumn(a.rows, owner, purpose));
    SumMonotone(UnitsColumn(b.rows, owner, purpose), UnitsColumn(a.rows, owner, purpose));
    SumMonotone(MinorUnitsColumn(b.rows, owner, purpose), MinorUnitsColumn(a.rows, owner, purpose));
  }

  lemma ActiveWritten(rows: map<Id, Rows>, id: Id, r: Rows, owner: Id, purpose: Purpose)
    ensures Sum(ActiveColumn(rows[id := r], owner, purpose))
            == Sum(ActiveColumn(rows, owner, purpose)) + ActiveOf(r, owner, purpose)
               - (if id in rows then ActiveOf(rows[id], owner, purpose) else 0)
  {
    SumWritten(ActiveColumn(rows, owner, purpose), id, ActiveOf(r, owner, purpose));
    assert ActiveColumn(rows[id := r], owner, purpose)
           == ActiveColumn(rows, owner, purpose)[id := ActiveOf(r, owner, purpose)];
  }

  lemma UnitsWritten(rows: map<Id, Rows>, id: Id, r: Rows, owner: Id, purpose: Purpose)
    ensures Sum(UnitsColumn(rows[id := r], owner, purpose))
            == Sum(UnitsColumn(rows, owner, purpose)) + UnitsOf(r, owner, purpose)
               - (if id in rows then UnitsOf(rows[id], owner, purpose) else 0)
  {
    SumWritten(UnitsColumn(rows, owner, purpose), id, UnitsOf(r, owner, purpose));
    assert UnitsColumn(rows[id := r], owner, purpose)
           == UnitsColumn(rows, owner, purpose)[id := UnitsOf(r, owner, purpose)];
  }

  lemma MinorUnitsWritten(rows: map<Id, Rows>, id: Id, r: Rows, owner: Id, purpose: Purpose)
    ensures Sum(MinorUnitsColumn(rows[id := r], owner, purpose))
            == Sum(MinorUnitsColumn(rows, owner, purpose)) + MinorUnitsOf(r, owner, purpose)
               - (if id in rows then MinorUnitsOf(rows[id], owner, purpose) else 0)
  {
    SumWritten(MinorUnitsColumn(rows, owner, purpose), id, MinorUnitsOf(r, owner, purpose));
    assert MinorUnitsColumn(rows[id := r], owner, purpose)
           == MinorUnitsColumn(rows, owner, purpose)[id := MinorUnitsOf(r, owner, purpose)];
  }

  /** Writing the rows of one task moves the snapshot by that task alone. */
  lemma UsageWritten(rows: map<Id, Rows>, id: Id, r: Rows, owner: Id, purpose: Purpose)
    ensures var u, v := UsageOf(rows, owner, purpose), UsageOf(rows[id := r], owner, purpose);
            var a := if id in rows then rows[id] else NO_ROWS;
            && v.tasks == u.tasks - ActiveOf(a, owner, purpose) + ActiveOf(r, owner, purpose)
            && v.units == u.units - UnitsOf(a, owner, purpose) + UnitsOf(r, owner, purpose)
            && v.minorUnits == u.minorUnits - MinorUnitsOf(a, owner, purpose) + MinorUnitsOf(r, owner, purpose)
  {
    ActiveWritten(rows, id, r, owner, purpose);
    UnitsWritten(rows, id, r, owner, purpose);
    MinorUnitsWritten(rows, id, r, owner, purpose);
  }

  /** A settlement moves the quota sum by exactly nothing on success and by minus
      the task's units otherwise, and always frees one task slot and its budget. */
  lemma SettlementUsage(rows: map<Id, Rows>, id: Id, r: Rows)
    requires id in rows && RowsOk(id, rows[id]) && RowsOk(id, r) && Steps(rows[id], r)
    requires rows[id].task.Some? && !Terminal(rows[id].task.value.status) && Terminal(r.task.value.status)
    ensures var f := r.task.value.facts;
            var u, v := UsageOf(rows, f.owner, f.purpose), UsageOf(rows[id := r], f.owner, f.purpose);
            && v.tasks == u.tasks - 1
            && v.units == u.units - (if r.task.value.status.Succeeded? then 0 else f.cost.quotaUnits)
            && v.minorUnits == u.minorUnits - f.cost.minorUnits
  {
    var f := r.task.value.facts;
    UsageWritten(rows, id, r, f.owner, f.purpose);
  }

  /** What an acceptance that is not a replay or duplicate writes. */
  lemma AcceptShape(db: Db, f: Facts, p: Policy)
    requires Core(db) && Accept(db, f, p).Ok?
    ensures var b := Accept(db, f, p).value;
            b == db
            || (f.id !in db.rows && b.rows == db.rows[f.id := Rows(Some(NewTask(f)), NewHold(f), None, map[], [])]
                && Admit(p, f.cost, UsageOf(db.rows, f.owner, f.purpose)).Ok?)
  {
  }

  /** Accepting a new task adds exactly its own cost, within the policy's limits. */
  lemma AcceptanceUsage(db: Db, f: Facts, p: Policy)
    requires Core(db) && Accept(db, f, p).Ok? && Accept(db, f, p).value != db
    ensures var u, v := UsageOf(db.rows, f.owner, f.purpose), UsageOf(Accept(db, f, p).value.rows, f.owner, f.purpose);
            && v == Usage(u.tasks + 1, u.units + f.cost.quotaUnits, u.minorUnits + f.cost.minorUnits)
            && AtMost(v, Usage(p.maxTasks, p.maxUnits, p.maxMinorUnits))
  {
    AcceptShape(db, f, p);
    NewUsage(db.rows, f, p);
  }

  lemma NewUsage(rows: map<Id, Rows>, f: Facts, p: Policy)
    requires f.id !in rows && Admit(p, f.cost, UsageOf(rows, f.owner, f.purpose)).Ok?
    ensures var u := UsageOf(rows, f.owner, f.purpose);
            var v := UsageOf(rows[f.id := Rows(Some(NewTask(f)), NewHold(f), None, map[], [])], f.owner, f.purpose);
            && v == Usage(u.tasks + 1, u.units + f.cost.quotaUnits, u.minorUnits + f.cost.minorUnits)
            && AtMost(v, Usage(p.maxTasks, p.maxUnits, p.maxMinorUnits))
  {
    UsageWritten(rows, f.id, Rows(Some(NewTask(f)), NewHold(f), None, map[], []), f.owner, f.purpose);
  }

  lemma OtherUsage(db: Db, f: Facts, p: Policy, owner: Id, purpose: Purpose)
    requires Core(db) && Accept(db, f, p).Ok? && (f.owner != owner || f.purpose != purpose)
    ensures UsageOf(Accept(db, f, p).value.rows, owner, purpose) == UsageOf(db.rows, owner, purpose)
  {
    AcceptShape(db, f, p);
    if Accept(db, f, p).value != db { OtherUsageStays(db.rows, f, owner, purpose); }
  }

  lemma OtherUsageStays(rows: map<Id, Rows>, f: Facts, owner: Id, purpose: Purpose)
    requires f.id !in rows && (f.owner != owner || f.purpose != purpose)
    ensures UsageOf(rows[f.id := Rows(Some(NewTask(f)), NewHold(f), None, map[], [])], owner, purpose)
            == UsageOf(rows, owner, purpose)
  {
    UsageWritten(rows, f.id, Rows(Some(NewTask(f)), NewHold(f), None, map[], []), owner, purpose);
  }

  predicate PolicyWithin(op: Op, limit: Usage) {
    op.Request? ==>
      AtMost(Usage(op.admission.maxTasks, op.admission.maxUnits, op.admission.maxMinorUnits), limit)
  }

  lemma StepUsage(db: Db, op: Op, timeout: Time, owner: Id, purpose: Purpose, limit: Usage)
    requires Core(db) && PolicyWithin(op, limit) && AtMost(UsageOf(db.rows, owner, purpose), limit)
    ensures AtMost(UsageOf(Step(db, op, timeout).rows, owner, purpose), limit)
  {
    if Apply(db, op, timeout).Ok? {
      ApplyLater(db, op, timeout, Apply(db, op, timeout).value);
      if !op.Request? {
        LaterUsesNoMore(db, Apply(db, op, timeout).value, owner, purpose);
      } else if op.facts.owner != owner || op.facts.purpose != purpose {
        OtherUsage(db, op.facts, op.admission, owner, purpose);
      } else if Accept(db, op.facts, op.admission).value != db {
        AcceptanceUsage(db, op.facts, op.admission);
      }
    }
  }

  lemma {:induction false} RunUsage(db: Db, ops: seq<Op>, timeout: Time, owner: Id, purpose: Purpose, limit: Usage)
    requires Core(db) && AtMost(UsageOf(db.rows, owner, purpose), limit)
    requires forall op :: op in ops ==> PolicyWithin(op, limit)
    ensures AtMost(UsageOf(Run(db, ops, timeout).rows, owner, purpose), limit)
    decreases |ops|
  {
    if ops != [] {
      StepUsage(db, ops[0], timeout, owner, purpose, limit);
      StepKeepsCore(db, ops[0], timeout);
      RunUsage(Step(db, ops[0], timeout), ops[1..], timeout, owner, purpose, limit);
    }
  }

  /** However submissions, settlements, retries, cancellations, revocations and
      erasures interleave, no owner ever holds more active tasks, quota or budget
      for a purpose than the most generous policy in force during the run. */
  lemma QuotaNeverExceeded(ops: seq<Op>, timeout: Time, owner: Id, purpose: Purpose, limit: Usage)
    requires forall op :: op in ops ==> PolicyWithin(op, limit)
    ensures AtMost(UsageOf(Run(EMPTY, ops, timeout).rows, owner, purpose), limit)
  {
    EmptyIsCore();
    assert UnitsColumn(EMPTY.rows, owner, purpose) == map[];
    RunUsage(EMPTY, ops, timeout, owner, purpose, limit);
  }
}
