/** Mail challenges: created for an address, claimed for sending under a short
    lease, marked sent or scheduled again, consumed once or revoked. */
module MailChallenge {
  import opened Base

  datatype ChallengePurpose = VerifyEmail | ResetPassword

  datatype Challenge = Challenge(
    user: Id, email: Id, purpose: ChallengePurpose, expiresAt: Time, nextAttemptAt: Time, leaseUntil: Option<Time>,
    attempts: nat, sentAt: Option<Time>, consumedAt: Option<Time>, revokedAt: Option<Time>, createdAt: Time)

  datatype User = User(active: bool, email: Id, verifiedAt: Option<Time>, revision: nat)

  datatype Db = Db(users: map<Id, User>, challenges: map<Id, Challenge>, used: set<Id>)

  const SEND_LEASE: Time := 30_000_000

  predicate Live(c: Challenge) { c.consumedAt.None? && c.revokedAt.None? }

  function RevokeOne(c: Challenge, now: Time): Challenge { c.(revokedAt := Some(now), leaseUntil := None) }

  /** Revokes the live challenges of a user, of one purpose or of both, except one. */
  function RevokeLive(cs: map<Id, Challenge>, user: Id, purpose: Option<ChallengePurpose>, spared: Option<Id>,
                      now: Time)
    : map<Id, Challenge>
  {
    map id | id in cs ::
      if cs[id].user == user && Live(cs[id]) && (purpose.None? || purpose == Some(cs[id].purpose))
        && spared != Some(id) then
        RevokeOne(cs[id], now)
      else cs[id]
  }

  function NewChallenge(user: Id, email: Id, purpose: ChallengePurpose, expiresAt: Time, now: Time): Challenge {
    Challenge(user, email, purpose, expiresAt, now, None, 0, None, None, None, now)
  }

  /** The insert after the revocation; the row must expire after it is created. */
  function Insert(db: Db, id: Id, c: Challenge, now: Time): Result<Db, Error> {
    if id in db.used || c.expiresAt <= c.createdAt then Err(Unavailable)
    else Ok(db.(challenges := RevokeLive(db.challenges, c.user, Some(c.purpose), None, now)[id := c],
                used := db.used + {id}))
  }

  function CreateVerification(db: Db, id: Id, user: Id, email: Id, expiresAt: Time, now: Time): Result<Db, Error> {
    if user !in db.users || !db.users[user].active then Err(Authentication)
    else if db.users[user].email != email || db.users[user].verifiedAt.Some? then Ok(db)
    else Insert(db, id, NewChallenge(user, email, VerifyEmail, expiresAt, now), now)
  }

  /** `holder` is the user the address belongs to, if it belongs to one. */
  function CreateReset(db: Db, id: Id, holder: Option<Id>, email: Id, expiresAt: Time, now: Time): Result<Db, Error> {
    if holder.None? || holder.value !in db.users || db.users[holder.value].email != email
      || !db.users[holder.value].active then
      Ok(db)
    else Insert(db, id, NewChallenge(holder.value, email, ResetPassword, expiresAt, now), now)
  }

  predicate Usable(c: Challenge, user: Id, email: Id, purpose: ChallengePurpose, now: Time) {
    c.user == user && c.email == email && c.purpose == purpose && now < c.expiresAt && c.sentAt.Some? && Live(c)
  }

  function Consume(db: Db, id: Id, now: Time): map<Id, Challenge>
    requires id in db.challenges
  {
    var c := db.challenges[id];
    RevokeLive(db.challenges[id := c.(consumedAt := Some(now))], c.user, Some(c.purpose), Some(id), now)
  }

  function ConfirmVerification(db: Db, id: Id, user: Id, email: Id, now: Time): Result<Db, Error> {
    if user !in db.users || !db.users[user].active || id !in db.challenges
       || !Usable(db.challenges[id], user, email, VerifyEmail, now)
       || db.users[user].email != email || db.users[user].verifiedAt.Some? then Err(NotConfirmable)
    else
      var u := db.users[user];
      Ok(db.(users := db.users[user := u.(verifiedAt := Some(now), revision := u.revision + 1)],
             challenges := Consume(db, id, now)))
  }

  function ConfirmReset(db: Db, id: Id, email: Id, now: Time): Result<Db, Error> {
    if id !in db.challenges then Err(NotConfirmable)
    else
      var user := db.challenges[id].user;
      if user !in db.users || !db.users[user].active || !Usable(db.challenges[id], user, email, ResetPassword, now)
         || db.users[user].email != email then Err(NotConfirmable)
      else
        var u := db.users[user];
        Ok(db.(users := db.users[user := u.(revision := u.revision + 1)], challenges := Consume(db, id, now)))
  }

  predicate Due(db: Db, id: Id, now: Time) {
    && id in db.challenges
    && var c := db.challenges[id];
       && c.sentAt.None? && Live(c) && now < c.expiresAt && c.nextAttemptAt <= now
       && (c.leaseUntil.None? || c.leaseUntil.value <= now)
       && c.user in db.users && db.users[c.user].active && db.users[c.user].email == c.email
  }

  function ClaimOne(c: Challenge, now: Time): Challenge {
    c.(leaseUntil := Some(now + SEND_LEASE), attempts := c.attempts + 1)
  }

  /** Claims a batch of due challenges; which of them is up to limit and locks. */
  function Claim(db: Db, batch: set<Id>, now: Time): Result<Db, Error> {
    if exists id :: id in batch && !Due(db, id, now) then Err(NotFound)
    else Ok(db.(challenges := map id | id in db.challenges ::
                                if id in batch then ClaimOne(db.challenges[id], now) else db.challenges[id]))
  }

  /** Whether a sender still holds the challenge under the lease it was given. */
  predicate Holds(db: Db, id: Id, lease: Time) {
    && id in db.challenges && db.challenges[id].leaseUntil == Some(lease)
    && db.challenges[id].sentAt.None? && db.challenges[id].revokedAt.None?
  }

  function MarkSent(db: Db, id: Id, lease: Time, at: Time): Db {
    if !Holds(db, id, lease) then db
    else db.(challenges := db.challenges[id := db.challenges[id].(sentAt := Some(at), leaseUntil := None)])
  }

  function Retry(db: Db, id: Id, lease: Time, next: Time): Db {
    if !Holds(db, id, lease) then db
    else db.(challenges := db.challenges[id := db.challenges[id].(nextAttemptAt := next, leaseUntil := None)])
  }

  function Purge(db: Db, before: Time): Db {
    db.(challenges := map id | id in db.challenges && before <= db.challenges[id].expiresAt :: db.challenges[id])
  }

  predicate Taken(db: Db, email: Id, user: Id) { exists u :: u in db.users && u != user && db.users[u].email == email }

  function Register(db: Db, user: Id, email: Id): Result<Db, Error> {
    if user in db.used || Taken(db, email, user) then Err(AccountConflict)
    else Ok(db.(users := db.users[user := User(true, email, None, 1)], used := db.used + {user}))
  }

  /** A change of address forgets the verification and revokes every live challenge. */
  function ChangeEmail(db: Db, user: Id, expected: nat, email: Id, at: Time): Result<Db, Error> {
    if user !in db.users then Err(NotFound)
    else
      var u := db.users[user];
      if !u.active then Err(Authentication)
      else if u.revision != expected || Taken(db, email, user) then Err(AccountConflict)
      else if u.email == email then Ok(db.(users := db.users[user := u.(revision := u.revision + 1)]))
      else
        Ok(db.(users := db.users[user := u.(email := email, verifiedAt := None, revision := u.revision + 1)],
               challenges := RevokeLive(db.challenges, user, None, None, at)))
  }

  datatype Op =
    | Join(user: Id, email: Id)
    | SetActive(user: Id, active: bool)
    | Move(user: Id, expected: nat, email: Id, at: Time)
    | AskVerification(id: Id, user: Id, email: Id, expiresAt: Time, at: Time)
    | AskReset(id: Id, holder: Option<Id>, email: Id, expiresAt: Time, at: Time)
    | Verify(id: Id, user: Id, email: Id, at: Time)
    | Reset(id: Id, email: Id, at: Time)
    | Take(batch: set<Id>, at: Time)
    | Sent(id: Id, lease: Time, at: Time)
    | Again(id: Id, lease: Time, next: Time)
    | Sweep(before: Time)

  function OrSame(db: Db, r: Result<Db, Error>): Db { match r case Ok(next) => next case Err(_) => db }

  function Step(db: Db, op: Op): Db {
    match op
    case Join(user, email) => OrSame(db, Register(db, user, email))
    case SetActive(user, active) =>
      if user in db.users then db.(users := db.users[user := db.users[user].(active := active)]) else db
    case Move(user, expected, email, at) => OrSame(db, ChangeEmail(db, user, expected, email, at))
    case AskVerification(id, user, email, expiresAt, at) =>
      OrSame(db, CreateVerification(db, id, user, email, expiresAt, at))
    case AskReset(id, holder, email, expiresAt, at) => OrSame(db, CreateReset(db, id, holder, email, expiresAt, at))
    case Verify(id, user, email, at) => OrSame(db, ConfirmVerification(db, id, user, email, at))
    case Reset(id, email, at) => OrSame(db, ConfirmReset(db, id, email, at))
    case Take(batch, at) => OrSame(db, Claim(db, batch, at))
    case Sent(id, lease, at) => MarkSent(db, id, lease, at)
    case Again(id, lease, next) => Retry(db, id, lease, next)
    case Sweep(before) => Purge(db, before)
  }

  function Run(db: Db, ops: seq<Op>): Db
    decreases |ops|
  {
    if ops == [] then db else Run(Step(db, ops[0]), ops[1..])
  }

  // ----------------------------------------------------------------- invariant

  predicate ChallengeOk(db: Db, id: Id)
    requires id in db.challenges
  {
    var c := db.challenges[id];
    && (Live(c) ==> c.user in db.users && db.users[c.user].email == c.email)
    && !(c.consumedAt.Some? && c.revokedAt.Some?)
    && (c.consumedAt.Some? ==> c.sentAt.Some?)
    && (c.revokedAt.Some? || c.sentAt.Some? ==> c.leaseUntil.None?)
    && id in db.used
  }

  predicate SameKind(a: Challenge, b: Challenge) { Live(a) && Live(b) && a.user == b.user && a.purpose == b.purpose }

  ghost predicate Inv(db: Db) {
    && (forall id :: id in db.challenges ==> ChallengeOk(db, id))
    && (forall i, j :: i in db.challenges && j in db.challenges && SameKind(db.challenges[i], db.challenges[j]) ==>
          i == j)
    && db.users.Keys <= db.used
  }

  lemma InsertKeeps(db: Db, id: Id, c: Challenge, now: Time)
    requires Inv(db) && Insert(db, id, c, now).Ok? && c.user in db.users && db.users[c.user].email == c.email
    requires c == NewChallenge(c.user, c.email, c.purpose, c.expiresAt, c.createdAt)
    ensures Inv(Insert(db, id, c, now).value)
  {
    var b := Insert(db, id, c, now).value;
    forall i | i in b.challenges ensures ChallengeOk(b, i) {
      if i != id { assert ChallengeOk(db, i); }
    }
    forall i, j | i in b.challenges && j in b.challenges && SameKind(b.challenges[i], b.challenges[j]) ensures i == j {
      if i != id && j != id { assert SameKind(db.challenges[i], db.challenges[j]); }
    }
  }

  lemma ConsumeKeeps(db: Db, b: Db, id: Id, now: Time)
    requires Inv(db) && id in db.challenges && Live(db.challenges[id]) && db.challenges[id].sentAt.Some?
    requires b == db.(users := b.users, challenges := Consume(db, id, now))
    requires b.users.Keys == db.users.Keys && forall u :: u in db.users ==> b.users[u].email == db.users[u].email
    ensures Inv(b)
  {
    forall i | i in b.challenges ensures ChallengeOk(b, i) { assert ChallengeOk(db, i); }
    forall i, j | i in b.challenges && j in b.challenges && SameKind(b.challenges[i], b.challenges[j]) ensures i == j {
      assert SameKind(db.challenges[i], db.challenges[j]);
    }
  }

  lemma ChangeKeeps(db: Db, user: Id, expected: nat, email: Id, at: Time)
    requires Inv(db) && ChangeEmail(db, user, expected, email, at).Ok?
    ensures Inv(ChangeEmail(db, user, expected, email, at).value)
  {
    var b := ChangeEmail(db, user, expected, email, at).value;
    forall i | i in b.challenges ensures ChallengeOk(b, i) { assert ChallengeOk(db, i); }
    forall i, j | i in b.challenges && j in b.challenges && SameKind(b.challenges[i], b.challenges[j]) ensures i == j {
      assert SameKind(db.challenges[i], db.challenges[j]);
    }
  }

  lemma SenderKeeps(db: Db, op: Op)
    requires Inv(db) && (op.Take? || op.Sent? || op.Again? || op.Sweep? || op.Join? || op.SetActive?)
    ensures Inv(Step(db, op))
  {
    var b := Step(db, op);
    forall i | i in b.challenges ensures ChallengeOk(b, i) { assert ChallengeOk(db, i); }
    forall i, j | i in b.challenges && j in b.challenges && SameKind(b.challenges[i], b.challenges[j]) ensures i == j {
      assert SameKind(db.challenges[i], db.challenges[j]);
    }
  }

  lemma StepKeeps(db: Db, op: Op)
    requires Inv(db)
    ensures Inv(Step(db, op))
  {
    match op
    case Move(user, expected, email, at) =>
      if ChangeEmail(db, user, expected, email, at).Ok? { ChangeKeeps(db, user, expected, email, at); }
    case AskVerification(id, user, email, expiresAt, at) =>
      var c := NewChallenge(user, email, VerifyEmail, expiresAt, at);
      if user in db.users && db.users[user].email == email && Insert(db, id, c, at).Ok? { InsertKeeps(db, id, c, at); }
    case AskReset(id, holder, email, expiresAt, at) =>
      if holder.Some? && holder.value in db.users && db.users[holder.value].email == email {
        var c := NewChallenge(holder.value, email, ResetPassword, expiresAt, at);
        if Insert(db, id, c, at).Ok? { InsertKeeps(db, id, c, at); }
      }
    case Verify(id, user, email, at) =>
      if ConfirmVerification(db, id, user, email, at).Ok? { ConsumeKeeps(db, Step(db, op), id, at); }
    case Reset(id, email, at) =>
      if ConfirmReset(db, id, email, at).Ok? { ConsumeKeeps(db, Step(db, op), id, at); }
    case _ => SenderKeeps(db, op);
  }

  lemma {:induction false} RunKeeps(db: Db, ops: seq<Op>)
    requires Inv(db)
    ensures Inv(Run(db, ops))
    decreases |ops|
  {
    if ops != [] {
      StepKeeps(db, ops[0]);
      RunKeeps(Step(db, ops[0]), ops[1..]);
    }
  }

  // ---------------------------------------------------------------- guarantees

  /** In every reachable state a user has at most one live challenge per purpose,
      each for the user's present address; none is both consumed and revoked; and
      only sent challenges were consumed. */
  lemma ChallengesHold(ops: seq<Op>, i: Id, j: Id)
    ensures var cs := Run(Db(map[], map[], {}), ops).challenges;
            var users := Run(Db(map[], map[], {}), ops).users;
            && (i in cs && j in cs && SameKind(cs[i], cs[j]) ==> i == j)
            && (i in cs && Live(cs[i]) ==> cs[i].user in users && users[cs[i].user].email == cs[i].email)
            && (i in cs ==>
                  !(cs[i].consumedAt.Some? && cs[i].revokedAt.Some?) && (cs[i].consumedAt.Some? ==> cs[i].sentAt.Some?))
  {
    RunKeeps(Db(map[], map[], {}), ops);
    var db := Run(Db(map[], map[], {}), ops);
    if i in db.challenges { assert ChallengeOk(db, i); }
  }

  /** How one challenge may look later: what is consumed, revoked or sent stays so. */
  predicate Settles(a: Challenge, b: Challenge) {
    && (a.consumedAt.Some? ==> b.consumedAt == a.consumedAt) && (a.revokedAt.Some? ==> b.revokedAt == a.revokedAt)
    && (a.sentAt.Some? ==> b.sentAt == a.sentAt) && a.attempts <= b.attempts
  }

  lemma StepSettles(db: Db, op: Op, id: Id)
    requires Inv(db) && id in db.challenges
    ensures id in Step(db, op).challenges ==> Settles(db.challenges[id], Step(db, op).challenges[id])
    ensures id in Step(db, op).used
  {
    assert ChallengeOk(db, id);
  }

  /** A consumed challenge is consumed once and for all: no later confirmation of
      it succeeds. */
  lemma {:induction false} ConsumedOnce(db: Db, ops: seq<Op>, id: Id, user: Id, email: Id, at: Time)
    requires Inv(db) && id in db.used && id !in db.users && (id in db.challenges ==> db.challenges[id].consumedAt.Some?)
    ensures var b := Run(db, ops);
            ConfirmVerification(b, id, user, email, at).Err? && ConfirmReset(b, id, email, at).Err?
    decreases |ops|
  {
    if ops != [] {
      StepKeeps(db, ops[0]);
      if id in db.challenges { StepSettles(db, ops[0], id); }
      ConsumedOnce(Step(db, ops[0]), ops[1..], id, user, email, at);
    }
  }

  // ------------------------------------------------------------ superseded senders

  /** Retries wait beyond the moment their claim was made. The service does: it adds
      a backoff of at least a minute to a moment after the claim. */
  predicate Patient(op: Op) { op.Again? ==> op.next + SEND_LEASE > op.lease }

  /** Nothing will be claimed for this challenge with a lease up to `lease`. */
  predicate Superseded(db: Db, id: Id, lease: Time) {
    && id in db.used && id !in db.users
    && (id in db.challenges ==>
          var c := db.challenges[id];
          if c.leaseUntil.Some? then c.leaseUntil.value > lease
          else c.sentAt.Some? || !Live(c) || c.nextAttemptAt + SEND_LEASE > lease)
  }

  lemma StepSupersedes(db: Db, op: Op, id: Id, lease: Time)
    requires Inv(db) && Superseded(db, id, lease) && Patient(op)
    ensures Superseded(Step(db, op), id, lease)
  {
    if id in db.challenges { assert ChallengeOk(db, id); }
  }

  /** A sender whose lease was superseded changes nothing, however late it reports
      and whatever happened since. */
  lemma {:induction false} SupersededReportsChangeNothing(db: Db, ops: seq<Op>, id: Id, lease: Time, at: Time,
                                                          next: Time)
    requires Inv(db) && Superseded(db, id, lease) && forall op :: op in ops ==> Patient(op)
    ensures var b := Run(db, ops); MarkSent(b, id, lease, at) == b && Retry(b, id, lease, next) == b
    decreases |ops|
  {
    if ops != [] {
      StepKeeps(db, ops[0]);
      StepSupersedes(db, ops[0], id, lease);
      SupersededReportsChangeNothing(Step(db, ops[0]), ops[1..], id, lease, at, next);
    }
  }

  /** Claiming a challenge again, after its lease ran out or after a patient retry,
      supersedes every lease it was claimed under before. */
  lemma ReclaimSupersedes(db: Db, batch: set<Id>, id: Id, now: Time, lease: Time)
    requires Inv(db) && Claim(db, batch, now).Ok? && id in batch
    requires var c := db.challenges[id]; c.leaseUntil == Some(lease) || c.nextAttemptAt + SEND_LEASE > lease
    requires id !in db.users
    ensures Superseded(Claim(db, batch, now).value, id, lease)
  {
    assert Due(db, id, now) && ChallengeOk(db, id);
  }

  /** Without patience the discipline fails: after a retry the very same lease value
      can be handed out a second time -- by a claim at the instant of the first one
      -- if and only if the retry is due no later than that instant. */
  lemma SameLeaseAgainIff(db: Db, id: Id, lease: Time, next: Time)
    requires Holds(db, id, lease) && lease >= SEND_LEASE && Live(db.challenges[id])
    requires lease - SEND_LEASE < db.challenges[id].expiresAt
    requires var c := db.challenges[id];
             c.user in db.users && db.users[c.user].active && db.users[c.user].email == c.email
    ensures var again, first := Retry(db, id, lease, next), lease - SEND_LEASE;
            && (Due(again, id, first) <==> next + SEND_LEASE <= lease)
            && (Due(again, id, first) ==>
                  Step(again, Take({id}, first)).challenges[id].leaseUntil == Some(lease))
  {
  }

  // ----------------------------------------------------------------- repository

  class Repository {
    var users: map<Id, User>
    var challenges: map<Id, Challenge>
    var used: set<Id>

    function View(): Db
      reads this
    {
      Db(users, challenges, used)
    }

    constructor ()
      ensures View() == Db(map[], map[], {})
    {
      users, challenges, used := map[], map[], {};
    }

    /** ORDER BY next_attempt_at, id: the first row of a non-empty set. */
    method First(candidates: set<Id>) returns (first: Id)
      requires candidates != {} && candidates <= challenges.Keys
      ensures first in candidates
      ensures forall id :: id in candidates ==> !Earlier(challenges, id, first)
    {
      var ids := Ascending(candidates);
      first := ids[0];
      var i := 1;
      while i < |ids|
        invariant 1 <= i <= |ids| && first in candidates
        invariant forall k :: 0 <= k < i ==> !Earlier(challenges, ids[k], first)
      {
        assert ids[i] in candidates;
        if Earlier(challenges, ids[i], first) { first := ids[i]; }
        i := i + 1;
      }
      forall id | id in candidates ensures !Earlier(challenges, id, first) { assert id in ids; }
    }

    /** The first `limit` of these rows in the order above. */
    method FirstFew(candidates: set<Id>, limit: nat) returns (batch: set<Id>)
      requires candidates <= challenges.Keys
      ensures batch <= candidates && |batch| <= limit && (|batch| < limit ==> batch == candidates)
      ensures forall i, j :: i in batch && j in candidates && j !in batch ==> !Earlier(challenges, j, i)
    {
      var rest := candidates;
      batch := {};
      while |batch| < limit && rest != {}
        invariant batch + rest == candidates && batch !! rest && |batch| <= limit
        invariant forall i, j :: i in batch && j in rest ==> !Earlier(challenges, j, i)
        decreases rest
      {
        var next := First(rest);
        batch := batch + {next};
        rest := rest - {next};
      }
    }

    /** Claims up to `limit` due challenges that nobody has locked, earliest first. */
    method ClaimDue(locked: set<Id>, now: Time, limit: nat) returns (batch: set<Id>)
      modifies this`challenges
      ensures View() == Step(old(View()), Take(batch, now)) && |batch| <= limit
      ensures forall id :: id in batch ==> Due(old(View()), id, now) && id !in locked
      ensures |batch| < limit ==> forall id :: Due(old(View()), id, now) && id !in locked ==> id in batch
      ensures forall i, j :: i in batch && Due(old(View()), j, now) && j !in locked && j !in batch ==>
                               !Earlier(old(challenges), j, i)
    {
      var due := set id | id in challenges && id !in locked && Due(View(), id, now);
      batch := FirstFew(due, limit);
      challenges := map id | id in challenges :: if id in batch then ClaimOne(challenges[id], now) else challenges[id];
    }

    method MarkChallengeSent(id: Id, lease: Time, at: Time) returns (affected: nat)
      modifies this`challenges
      ensures View() == MarkSent(old(View()), id, lease, at) && (affected == 1 <==> Holds(old(View()), id, lease))
    {
      affected := 0;
      if id in challenges {
        var c := challenges[id];
        if c.leaseUntil == Some(lease) && c.sentAt.None? && c.revokedAt.None? {
          challenges := challenges[id := c.(sentAt := Some(at), leaseUntil := None)];
          affected := 1;
        }
      }
    }

    /** The user row, the consumed challenge, then the others of its kind. */
    method ConfirmUserVerification(id: Id, user: Id, email: Id, now: Time) returns (e: Option<Error>)
      modifies this
      ensures View() == Step(old(View()), Verify(id, user, email, now))
      ensures e.None? <==> ConfirmVerification(old(View()), id, user, email, now).Ok?
    {
      e := Some(NotConfirmable);
      if user !in users || !users[user].active || id !in challenges { return; }
      if !Usable(challenges[id], user, email, VerifyEmail, now) { return; }
      if users[user].email != email || users[user].verifiedAt.Some? { return; }
      users := users[user := users[user].(verifiedAt := Some(now), revision := users[user].revision + 1)];
      challenges := challenges[id := challenges[id].(consumedAt := Some(now))];
      challenges := RevokeLive(challenges, user, Some(VerifyEmail), Some(id), now);
      e := None;
    }
  }

  predicate Earlier(cs: map<Id, Challenge>, a: Id, b: Id) {
    a in cs && b in cs
    && (cs[a].nextAttemptAt < cs[b].nextAttemptAt || (cs[a].nextAttemptAt == cs[b].nextAttemptAt && a < b))
  }
}
