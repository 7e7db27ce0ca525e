/** Export jobs: building an archive under a lease that the attempt counter fences,
    expiring or revoking it, and cleaning its archive up under a second lease. */
module DataExport {
  import opened Base

  datatype JobStatus = Preparing | Ready | Partial | Failed | Expired | Revoked

  datatype Job = Job(
    owner: Id, withMedia: bool, status: JobStatus, archive: Option<Id>, attempts: nat, leaseUntil: Option<Time>,
    cleanupLeaseUntil: Option<Time>, cleanedAt: Option<Time>, createdAt: Time, completedAt: Option<Time>,
    expiresAt: Time, revokedAt: Option<Time>)

  /** `active` are the users in status active; `used` every export id so far. */
  datatype Db = Db(active: set<Id>, jobs: map<Id, Job>, used: set<Id>)

  const MAX_BUILDS: nat := 3
  const BUILD_LEASE: Time := 120_000_000
  const RETRY_DELAY: Time := 10_000_000
  const CLEANUP_LEASE: Time := 60_000_000

  predicate Before(lease: Option<Time>, at: Time) { lease.None? || lease.value < at }

  function Create(db: Db, id: Id, owner: Id, withMedia: bool, createdAt: Time, expiresAt: Time): Result<Db, Error> {
    if owner !in db.active || id in db.used then Err(Unavailable)
    else
      var job := Job(owner, withMedia, Preparing, None, 0, None, None, None, createdAt, None, expiresAt, None);
      Ok(db.(jobs := db.jobs[id := job], used := db.used + {id}))
  }

  function Revoke(db: Db, owner: Id, id: Id, at: Time): Result<Db, Error> {
    if owner !in db.active || id !in db.jobs || db.jobs[id].owner != owner then Err(NotFound)
    else if db.jobs[id].status.Revoked? then Ok(db)
    else Ok(db.(jobs := db.jobs[id := db.jobs[id].(status := Revoked, revokedAt := Some(at))]))
  }

  /** A job whose last build ran out of its lease. */
  predicate Exhausted(j: Job, at: Time) {
    j.status.Preparing? && j.attempts >= MAX_BUILDS && j.leaseUntil.Some? && j.leaseUntil.value < at
  }

  function FailExhausted(jobs: map<Id, Job>, at: Time): map<Id, Job> {
    map id | id in jobs :: if Exhausted(jobs[id], at) then jobs[id].(status := Failed, leaseUntil := None) else jobs[id]
  }

  predicate Claimable(j: Job, at: Time) {
    j.status.Preparing? && at < j.expiresAt && j.attempts < MAX_BUILDS && Before(j.leaseUntil, at)
  }

  /** One transaction marks the exhausted jobs failed and takes one claimable job.
      With nothing to take (`choice` is none: no claimable row, or every one of them
      locked by another worker) it is rolled back as a whole. */
  function Claim(db: Db, choice: Option<Id>, at: Time): Result<Db, Error> {
    var jobs := FailExhausted(db.jobs, at);
    if choice.None? || choice.value !in jobs || !Claimable(jobs[choice.value], at) then Err(NotFound)
    else
      var j := jobs[choice.value];
      Ok(db.(jobs := jobs[choice.value := j.(attempts := j.attempts + 1, leaseUntil := Some(at + BUILD_LEASE))]))
  }

  /** `attempts` is what the worker was handed with its claim. */
  predicate Completes(db: Db, owner: Id, id: Id, attempts: nat, at: Time) {
    && owner in db.active && id in db.jobs && db.jobs[id].owner == owner
    && db.jobs[id].status.Preparing? && db.jobs[id].attempts == attempts && at < db.jobs[id].expiresAt
  }

  /** A completion that is not accepted changes nothing and reports no error. */
  function Complete(db: Db, owner: Id, id: Id, attempts: nat, omitted: nat, archive: Id, at: Time): Db {
    if !Completes(db, owner, id, attempts, at) then db
    else
      db.(jobs := db.jobs[id := db.jobs[id].(status := if omitted > 0 then Partial else Ready, archive := Some(archive),
                                             completedAt := Some(at), leaseUntil := None)])
  }

  function Fail(db: Db, id: Id, attempts: nat, at: Time): Db {
    if id !in db.jobs || !db.jobs[id].status.Preparing? || db.jobs[id].attempts != attempts then db
    else
      db.(jobs := db.jobs[id := db.jobs[id].(status := if attempts >= MAX_BUILDS then Failed else Preparing,
                                             leaseUntil := Some(at + RETRY_DELAY))])
  }

  predicate Cleanable(j: Job, at: Time) {
    && j.cleanedAt.None? && (j.expiresAt <= at || j.status.Revoked?)
    && Before(j.leaseUntil, at) && Before(j.cleanupLeaseUntil, at)
  }

  function ClaimCleanup(db: Db, choice: Option<Id>, at: Time): Result<Db, Error> {
    if choice.None? || choice.value !in db.jobs || !Cleanable(db.jobs[choice.value], at) then Err(NotFound)
    else
      var j := db.jobs[choice.value];
      Ok(db.(jobs := db.jobs[choice.value := j.(status := if j.status.Revoked? then Revoked else Expired,
                                                cleanupLeaseUntil := Some(at + CLEANUP_LEASE))]))
  }

  function FinishCleanup(db: Db, id: Id, at: Time): Db {
    if id !in db.jobs || !(db.jobs[id].status.Expired? || db.jobs[id].status.Revoked?) then db
    else
      db.(jobs := db.jobs[id := db.jobs[id].(archive := None, cleanupLeaseUntil := None, leaseUntil := None,
                                             cleanedAt := Some(at))])
  }

  function Purge(db: Db, before: Time): Db {
    db.(jobs := map id | id in db.jobs && !(db.jobs[id].cleanedAt.Some? && db.jobs[id].cleanedAt.value < before) ::
                   db.jobs[id])
  }

  function RevokeJob(j: Job, at: Time): Job { j.(status := Revoked, revokedAt := Some(at)) }

  /** Account deletion closes the account and revokes whatever has not ended. */
  function LeaveAccount(db: Db, owner: Id, at: Time): Db {
    db.(active := db.active - {owner},
        jobs := map id | id in db.jobs ::
                  if db.jobs[id].owner == owner && !db.jobs[id].status.Revoked? && !db.jobs[id].status.Expired? then
                    RevokeJob(db.jobs[id], at)
                  else db.jobs[id])
  }

  /** Media deletion revokes archives that may contain the original. */
  function DeleteMedia(db: Db, owner: Id, at: Time): Db {
    db.(jobs := map id | id in db.jobs ::
                  if db.jobs[id].owner == owner && db.jobs[id].withMedia
                     && (db.jobs[id].status.Preparing? || db.jobs[id].status.Ready? || db.jobs[id].status.Partial?) then
                    RevokeJob(db.jobs[id], at)
                  else db.jobs[id])
  }

  datatype Op =
    | Enter(user: Id)
    | Start(id: Id, owner: Id, withMedia: bool, createdAt: Time, expiresAt: Time)
    | Cancel(owner: Id, id: Id, at: Time)
    | Take(choice: Option<Id>, at: Time)
    | Deliver(owner: Id, id: Id, attempts: nat, omitted: nat, archive: Id, at: Time)
    | GiveUp(id: Id, attempts: nat, at: Time)
    | TakeCleanup(choice: Option<Id>, at: Time)
    | EndCleanup(id: Id, at: Time)
    | Sweep(before: Time)
    | Leave(owner: Id, at: Time)
    | RemoveMedia(owner: Id, at: Time)

  function OrSame(db: Db, r: Result<Db, Error>): Db { match r case Ok(next) => next case Err(_) => db }

  function Step(db: Db, op: Op): Db {
    match op
    case Enter(user) => db.(active := db.active + {user})
    case Start(id, owner, withMedia, createdAt, expiresAt) =>
      OrSame(db, Create(db, id, owner, withMedia, createdAt, expiresAt))
    case Cancel(owner, id, at) => OrSame(db, Revoke(db, owner, id, at))
    case Take(choice, at) => OrSame(db, Claim(db, choice, at))
    case Deliver(owner, id, attempts, omitted, archive, at) => Complete(db, owner, id, attempts, omitted, archive, at)
    case GiveUp(id, attempts, at) => Fail(db, id, attempts, at)
    case TakeCleanup(choice, at) => OrSame(db, ClaimCleanup(db, choice, at))
    case EndCleanup(id, at) => FinishCleanup(db, id, at)
    case Sweep(before) => Purge(db, before)
    case Leave(owner, at) => LeaveAccount(db, owner, at)
    case RemoveMedia(owner, at) => DeleteMedia(db, owner, at)
  }

  function Run(db: Db, ops: seq<Op>): Db
    decreases |ops|
  {
    if ops == [] then db else Run(Step(db, ops[0]), ops[1..])
  }

  // ----------------------------------------------------------------- invariant

  /** How far a job has come: an outcome, then expiry, then revocation. */
  function Rank(s: JobStatus): nat {
    match s
    case Preparing => 0
    case Ready => 1
    case Partial => 1
    case Failed => 1
    case Expired => 2
    case Revoked => 3
  }

  predicate JobOk(j: Job) {
    && j.attempts <= MAX_BUILDS
    && (j.completedAt.Some? ==> Rank(j.status) >= 1)
    && (j.status.Ready? || j.status.Partial? ==> j.completedAt.Some? && j.archive.Some?)
    && (j.archive.Some? ==> j.completedAt.Some?)
    && (j.cleanedAt.Some? ==> Rank(j.status) >= 2 && j.archive.None?)
    && (j.cleanupLeaseUntil.Some? ==>
          && Rank(j.status) >= 2 && j.cleanupLeaseUntil.value >= CLEANUP_LEASE
          && (j.leaseUntil.Some? ==> j.leaseUntil.value < j.cleanupLeaseUntil.value - CLEANUP_LEASE))
  }

  /** A job over any number of transactions by any writers. */
  predicate JobStep(a: Job, b: Job) {
    && b.owner == a.owner && b.withMedia == a.withMedia && b.createdAt == a.createdAt && b.expiresAt == a.expiresAt
    && Rank(a.status) <= Rank(b.status) && (Rank(a.status) == Rank(b.status) ==> a.status == b.status)
    && a.attempts <= b.attempts && (a.attempts < b.attempts ==> a.status.Preparing?)
    && (!a.status.Preparing? ==> b.completedAt == a.completedAt && (b.archive == a.archive || b.archive.None?))
    && (a.cleanedAt.Some? ==> b.cleanedAt.Some?)
  }

  ghost predicate Inv(db: Db) {
    db.jobs.Keys <= db.used && forall id :: id in db.jobs ==> JobOk(db.jobs[id])
  }

  ghost predicate Later(a: Db, b: Db) {
    && a.used <= b.used
    && forall id :: id in b.jobs ==> if id in a.jobs then JobStep(a.jobs[id], b.jobs[id]) else id !in a.used
  }

  /** One writer on one row. */
  lemma RowKeeps(j: Job, at: Time, archive: Id, omitted: nat)
    requires JobOk(j)
    ensures JobOk(RevokeJob(j, at)) && JobStep(j, RevokeJob(j, at))
    ensures Exhausted(j, at) ==> var n := j.(status := Failed, leaseUntil := None); JobOk(n) && JobStep(j, n)
    ensures Claimable(j, at) ==>
              var n := j.(attempts := j.attempts + 1, leaseUntil := Some(at + BUILD_LEASE)); JobOk(n) && JobStep(j, n)
    ensures j.status.Preparing? ==>
              var n := j.(status := if omitted > 0 then Partial else Ready, archive := Some(archive),
                          completedAt := Some(at), leaseUntil := None);
              JobOk(n) && JobStep(j, n)
    ensures j.status.Preparing? ==>
              var n := j.(status := if j.attempts >= MAX_BUILDS then Failed else Preparing,
                          leaseUntil := Some(at + RETRY_DELAY));
              JobOk(n) && JobStep(j, n)
    ensures Cleanable(j, at) ==>
              var n := j.(status := if j.status.Revoked? then Revoked else Expired,
                          cleanupLeaseUntil := Some(at + CLEANUP_LEASE));
              JobOk(n) && JobStep(j, n)
    ensures j.status.Expired? || j.status.Revoked? ==>
              var n := j.(archive := None, cleanupLeaseUntil := None, leaseUntil := None, cleanedAt := Some(at));
              JobOk(n) && JobStep(j, n)
  {
  }

  lemma OwnerStepKeeps(db: Db, op: Op)
    requires Inv(db) && (op.Enter? || op.Start? || op.Cancel? || op.Leave? || op.RemoveMedia? || op.Sweep?)
    ensures Inv(Step(db, op)) && Later(db, Step(db, op))
  {
    forall id | id in db.jobs ensures JobOk(db.jobs[id]) && JobStep(db.jobs[id], db.jobs[id]) { }
    forall id, at | id in db.jobs
      ensures JobOk(RevokeJob(db.jobs[id], at)) && JobStep(db.jobs[id], RevokeJob(db.jobs[id], at))
    {
      RowKeeps(db.jobs[id], at, 0, 0);
    }
  }

  lemma WorkerStepKeeps(db: Db, op: Op)
    requires Inv(db) && (op.Deliver? || op.GiveUp? || op.TakeCleanup? || op.EndCleanup?)
    ensures Inv(Step(db, op)) && Later(db, Step(db, op))
  {
    forall id | id in db.jobs ensures JobOk(db.jobs[id]) && JobStep(db.jobs[id], db.jobs[id]) { }
    match op
    case Deliver(_, id, _, omitted, archive, at) => if id in db.jobs { RowKeeps(db.jobs[id], at, archive, omitted); }
    case GiveUp(id, _, at) => if id in db.jobs { RowKeeps(db.jobs[id], at, 0, 0); }
    case TakeCleanup(choice, at) =>
      if choice.Some? && choice.value in db.jobs { RowKeeps(db.jobs[choice.value], at, 0, 0); }
    case EndCleanup(id, at) => if id in db.jobs { RowKeeps(db.jobs[id], at, 0, 0); }
  }

  lemma ClaimKeeps(db: Db, choice: Option<Id>, at: Time)
    requires Inv(db)
    ensures var b := OrSame(db, Claim(db, choice, at)); Inv(b) && Later(db, b)
  {
    var b := OrSame(db, Claim(db, choice, at));
    forall id | id in b.jobs ensures JobOk(b.jobs[id]) && JobStep(db.jobs[id], b.jobs[id]) {
      RowKeeps(db.jobs[id], at, 0, 0);
    }
  }

  lemma StepKeeps(db: Db, op: Op)
    requires Inv(db)
    ensures Inv(Step(db, op)) && Later(db, Step(db, op))
  {
    if op.Take? {
      ClaimKeeps(db, op.choice, op.at);
    } else if op.Deliver? || op.GiveUp? || op.TakeCleanup? || op.EndCleanup? {
      WorkerStepKeeps(db, op);
    } else {
      OwnerStepKeeps(db, op);
    }
  }

  lemma LaterTransitive(a: Db, b: Db, c: Db)
    requires Inv(a) && Later(a, b) && Later(b, c)
    ensures Later(a, c)
  {
  }

  lemma {:induction false} RunKeeps(db: Db, ops: seq<Op>)
    requires Inv(db)
    ensures Inv(Run(db, ops)) && Later(db, Run(db, ops))
    decreases |ops|
  {
    if ops != [] {
      StepKeeps(db, ops[0]);
      RunKeeps(Step(db, ops[0]), ops[1..]);
      LaterTransitive(db, Step(db, ops[0]), Run(db, ops));
    }
  }

  // ---------------------------------------------------------------- guarantees

  lemma NoJobsIsOk(active: set<Id>)
    ensures Inv(Db(active, map[], {}))
  {
  }

  /** The status never goes back, attempts never exceed three, and a cleaned job is
      expired or revoked and has no archive left, whatever any writer does afterwards --
      builders, cleaners, owners, account deletion and media deletion alike. */
  lemma StatusNeverGoesBack(db: Db, ops: seq<Op>, id: Id)
    requires Inv(db) && id in db.jobs && id in Run(db, ops).jobs
    ensures var a, b := db.jobs[id], Run(db, ops).jobs[id];
            && Rank(a.status) <= Rank(b.status) && b.attempts <= MAX_BUILDS
            && (a.cleanedAt.Some? ==> (b.status.Expired? || b.status.Revoked?) && b.archive.None?)
  {
    RunKeeps(db, ops);
    assert JobOk(Run(db, ops).jobs[id]);
  }

  /** Once a completion has been accepted no other one ever is, from any worker, in
      any later state. */
  lemma AtMostOneCompletion(db: Db, ops: seq<Op>, owner: Id, id: Id, attempts: nat, omitted: nat, archive: Id, at: Time,
                            other: Id, again: nat, later: Time)
    requires Inv(db) && Completes(db, owner, id, attempts, at)
    ensures var after := Run(Complete(db, owner, id, attempts, omitted, archive, at), ops);
            !Completes(after, other, id, again, later)
  {
    var done := Complete(db, owner, id, attempts, omitted, archive, at);
    StepKeeps(db, Deliver(owner, id, attempts, omitted, archive, at));
    RunKeeps(done, ops);
  }

  /** A worker whose job has been claimed again is refused for good: what it
      delivers or gives up changes nothing, however late it comes. */
  lemma OvertakenWorkerIsRefused(db: Db, ops: seq<Op>, owner: Id, id: Id, attempts: nat, omitted: nat, archive: Id,
                                 at: Time)
    requires Inv(db) && id in db.used && (id in db.jobs ==> attempts < db.jobs[id].attempts)
    ensures var b := Run(db, ops);
            Complete(b, owner, id, attempts, omitted, archive, at) == b && Fail(b, id, attempts, at) == b
  {
    RunKeeps(db, ops);
  }

  /** Every claim raises the counter, so it overtakes every earlier claim of the job
      and brings the job one step closer to its limit. */
  lemma ClaimOvertakes(db: Db, id: Id, at: Time)
    requires Claim(db, Some(id), at).Ok?
    ensures var b := Claim(db, Some(id), at).value;
            && id in db.jobs && b.jobs[id].attempts == db.jobs[id].attempts + 1 <= MAX_BUILDS
            && Before(db.jobs[id].leaseUntil, at) && b.jobs[id].leaseUntil == Some(at + BUILD_LEASE)
  {
  }

  /** From the moment a cleanup lease is taken no build lease is live: the build
      lease had run out before, and none is ever granted again. */
  lemma LeasesExclude(db: Db, ops: seq<Op>, id: Id, claimed: Time, now: Time)
    requires Inv(db) && id in Run(db, ops).jobs
    requires Run(db, ops).jobs[id].cleanupLeaseUntil == Some(claimed + CLEANUP_LEASE) && claimed <= now
    ensures var j := Run(db, ops).jobs[id]; Before(j.leaseUntil, now) && !Claimable(j, now)
  {
    RunKeeps(db, ops);
    assert JobOk(Run(db, ops).jobs[id]);
  }

  /** An exhausted job becomes failed in a claiming transaction if and only if that
      transaction also finds a job to hand out; otherwise its update is rolled back
      and the job stays in preparation. */
  lemma ExhaustedFailsIff(db: Db, choice: Option<Id>, id: Id, at: Time)
    requires id in db.jobs && Exhausted(db.jobs[id], at)
    ensures Step(db, Take(choice, at)).jobs[id].status.Failed?
            <==> choice.Some? && choice.value in db.jobs && Claimable(db.jobs[choice.value], at)
  {
  }

  /** The one job there is, after its n-th claim. */
  function Claimed(attempts: nat, lease: Option<Time>): Db {
    Db({1}, map[2 := Job(1, false, Preparing, None, attempts, lease, None, None, 0, None, 2_000_000_000, None)], {2})
  }

  lemma ClaimOnce(a: Db, at: Time, b: Db)
    requires 2 in a.jobs && a.jobs.Keys == {2} && !Exhausted(a.jobs[2], at) && Claimable(a.jobs[2], at)
    requires b == a.(jobs :=
                     map[2 := a.jobs[2].(attempts := a.jobs[2].attempts + 1, leaseUntil := Some(at + BUILD_LEASE))])
    ensures Step(a, Take(Some(2), at)) == b
  {
    assert FailExhausted(a.jobs, at) == a.jobs;
    assert a.jobs[2 := b.jobs[2]] == b.jobs;
  }

  /** A job whose three builds all ran out of their lease is still in preparation, and
      the next claiming transaction, which finds nothing else, leaves it there. */
  lemma ExhaustedStaysIsReached() returns (ops: seq<Op>)
    ensures var db := Run(Db({}, map[], {}), ops);
            && 2 in db.jobs && Exhausted(db.jobs[2], 500_000_000)
            && (forall choice :: Step(db, Take(choice, 500_000_000)).jobs[2].status.Preparing?)
  {
    var begin := [Enter(1), Start(2, 1, false, 0, 2_000_000_000)];
    var takes := [Take(Some(2), 1), Take(Some(2), 121_000_000), Take(Some(2), 242_000_000)];
    var a, b, c, d := Claimed(0, None), Claimed(1, Some(120_000_001)), Claimed(2, Some(241_000_000)),
      Claimed(3, Some(362_000_000));
    ClaimOnce(a, 1, b);
    ClaimOnce(b, 121_000_000, c);
    ClaimOnce(c, 242_000_000, d);
    assert {} + {1} == {1} && {} + {2} == {2} && map[][2 := a.jobs[2]] == a.jobs;
    assert Step(Db({}, map[], {}), begin[0]) == Db({1}, map[], {}) && Step(Db({1}, map[], {}), begin[1]) == a;
    ops := begin + takes;
    assert ops[1..] == [begin[1]] + takes && ops[1..][1..] == takes;
    assert takes[1..] == [takes[1], takes[2]] && takes[1..][1..] == [takes[2]] && takes[1..][1..][1..] == [];
    assert Run(d, []) == d && Run(c, takes[1..][1..]) == d && Run(b, takes[1..]) == d && Run(a, takes) == d;
    assert Run(Db({1}, map[], {}), ops[1..]) == d;
    forall choice ensures Step(d, Take(choice, 500_000_000)).jobs[2].status.Preparing? {
      ExhaustedFailsIff(d, choice, 2, 500_000_000);
    }
  }

  // ----------------------------------------------------------------- repository

  class Repository {
    var active: set<Id>
    var jobs: map<Id, Job>
    var used: set<Id>

    function View(): Db
      reads this
    {
      Db(active, jobs, used)
    }

    constructor ()
      ensures View() == Db({}, map[], {})
    {
      active, jobs, used := {}, map[], {};
    }

    /** The oldest row of `candidates` (ORDER BY created_at ASC, first row). */
    method Oldest(candidates: set<Id>) returns (choice: Option<Id>)
      requires candidates <= jobs.Keys
      ensures choice.None? <==> candidates == {}
      ensures choice.Some? ==>
                && choice.value in candidates
                && forall id :: id in candidates ==> jobs[choice.value].createdAt <= jobs[id].createdAt
    {
      var ids := Ascending(candidates);
      choice := None;
      var i := 0;
      while i < |ids|
        invariant 0 <= i <= |ids|
        invariant choice.None? <==> i == 0
        invariant choice.Some? ==>
                    && choice.value in candidates
                    && forall k :: 0 <= k < i ==> jobs[choice.value].createdAt <= jobs[ids[k]].createdAt
      {
        assert ids[i] in candidates;
        if choice.None? || jobs[ids[i]].createdAt < jobs[choice.value].createdAt { choice := Some(ids[i]); }
        i := i + 1;
      }
      forall id | choice.Some? && id in candidates ensures jobs[choice.value].createdAt <= jobs[id].createdAt {
        assert id in ids;
      }
    }

    /** Marks exhausted jobs, takes the oldest claimable job that nobody has locked,
        and undoes the marking when there is none. */
    method ClaimJob(locked: set<Id>, at: Time) returns (choice: Option<Id>)
      modifies this`jobs
      ensures View() == Step(old(View()), Take(choice, at))
      ensures choice.None? ==> View() == old(View())
      ensures choice.None? <==> forall id :: id in old(jobs) && id !in locked ==> !Claimable(old(jobs)[id], at)
      ensures choice.Some? ==>
                && choice.value in old(jobs) && choice.value !in locked && Claimable(old(jobs)[choice.value], at)
                && jobs[choice.value].attempts == old(jobs)[choice.value].attempts + 1
                && forall id :: id in old(jobs) && id !in locked && Claimable(old(jobs)[id], at) ==>
                     old(jobs)[choice.value].createdAt <= old(jobs)[id].createdAt
    {
      var before := jobs;
      jobs := FailExhausted(jobs, at);
      var candidates := set id | id in jobs && id !in locked && Claimable(jobs[id], at);
      choice := Oldest(candidates);
      if choice.None? {
        jobs := before;
        assert forall id :: id in before && id !in locked && Claimable(before[id], at) ==> id in candidates;
      } else {
        var j := jobs[choice.value];
        jobs := jobs[choice.value := j.(attempts := j.attempts + 1, leaseUntil := Some(at + BUILD_LEASE))];
        assert forall id :: id in before && id !in locked && Claimable(before[id], at) ==> id in candidates;
      }
    }

    method CompleteJob(owner: Id, id: Id, attempts: nat, omitted: nat, archive: Id, at: Time) returns (accepted: bool)
      modifies this`jobs
      ensures accepted <==> Completes(old(View()), owner, id, attempts, at)
      ensures View() == Complete(old(View()), owner, id, attempts, omitted, archive, at)
    {
      accepted := false;
      if owner !in active { return; }
      if id !in jobs || jobs[id].owner != owner { return; }
      var j := jobs[id];
      if !j.status.Preparing? || j.attempts != attempts || j.expiresAt <= at { return; }
      j := j.(status := if omitted > 0 then Partial else Ready, archive := Some(archive));
      jobs := jobs[id := j.(completedAt := Some(at), leaseUntil := None)];
      accepted := true;
    }

    method ClaimJobCleanup(locked: set<Id>, at: Time) returns (choice: Option<Id>)
      modifies this`jobs
      ensures View() == Step(old(View()), TakeCleanup(choice, at))
      ensures choice.None? <==> forall id :: id in old(jobs) && id !in locked ==> !Cleanable(old(jobs)[id], at)
      ensures choice.Some? ==>
                && choice.value in old(jobs) && choice.value !in locked && Cleanable(old(jobs)[choice.value], at)
                && forall id :: id in old(jobs) && id !in locked && Cleanable(old(jobs)[id], at) ==>
                     old(jobs)[choice.value].createdAt <= old(jobs)[id].createdAt
    {
      var candidates := set id | id in jobs && id !in locked && Cleanable(jobs[id], at);
      choice := Oldest(candidates);
      if choice.Some? {
        var j := jobs[choice.value];
        if !j.status.Revoked? { j := j.(status := Expired); }
        jobs := jobs[choice.value := j.(cleanupLeaseUntil := Some(at + CLEANUP_LEASE))];
      } else {
        assert forall id :: id in jobs && id !in locked && Cleanable(jobs[id], at) ==> id in candidates;
      }
    }
  }
}
