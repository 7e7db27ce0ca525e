/** The tables behind accounts, media and generation, and every transaction that
    crosses tasks, media and accounts. A transaction is a function from the
    committed state to the next committed state, or to the error that rolls it
    back. Instants are parameters and need not increase from one transaction to
    the next. */
module GenerationStore {
  import opened Base
  import opened GenerationTask
  import opened GenerationCleanup
  import opened GenerationRows
  import opened Media

  datatype UserStatus = Active | Suspended | Leaving

  datatype UserRole = Member | Moderator | Admin

  /** `adult`: a current self-adult declaration is on file. */
  datatype User = User(status: UserStatus, role: UserRole, revision: nat, adult: bool)

  datatype Session = Session(user: Id, expiresAt: Time)

  /** One row per user, pending until `completedAt` is set. */
  datatype AccountDeletion = AccountDeletion(id: Id, requestedAt: Time, completedAt: Option<Time>)

  /** `used` holds every identifier handed out so far; a new uuid is not in it. */
  datatype Db = Db(
    users: map<Id, User>, sessions: map<Id, Session>, accounts: map<Id, AccountDeletion>,
    files: MediaDb, rows: map<Id, Rows>, used: set<Id>)

  const EMPTY := Db(map[], map[], map[], MediaDb(map[], map[], map[], {}), map[], {})

  predicate IsActive(db: Db, user: Id) { user in db.users && db.users[user].status.Active? }

  // ----------------------------------------------------------------- sessions

  /** The user a session token authenticates. */
  function FindUserBySession(db: Db, token: Id, now: Time): Result<Id, Error> {
    if token !in db.sessions || db.sessions[token].expiresAt <= now || !IsActive(db, db.sessions[token].user) then
      Err(Authentication)
    else Ok(db.sessions[token].user)
  }

  function CreateUser(db: Db, user: Id, role: UserRole): Result<Db, Error> {
    if user in db.used then Err(AccountConflict)
    else Ok(db.(users := db.users[user := User(Active, role, 1, false)], used := db.used + {user}))
  }

  function CreateSession(db: Db, token: Id, user: Id, expiresAt: Time): Result<Db, Error> {
    if user !in db.users || token in db.sessions then Err(Unavailable)
    else Ok(db.(sessions := db.sessions[token := Session(user, expiresAt)]))
  }

  function SessionsOf(sessions: map<Id, Session>, user: Id): set<Id> {
    set s | s in sessions && sessions[s].user == user
  }

  /** An administrator sets any status on any user; nothing here looks at the
      current one. */
  function SetUserStatus(db: Db, user: Id, expected: nat, status: UserStatus): Result<Db, Error> {
    if user !in db.users then Err(NotFound)
    else if db.users[user].revision != expected then Err(RevisionConflict)
    else if db.users[user].status == status then Ok(db)
    else
      var updated := db.(users := db.users[user := db.users[user].(status := status, revision := expected + 1)]);
      Ok(if status.Suspended? then updated.(sessions := db.sessions - SessionsOf(db.sessions, user)) else updated)
  }

  // ---------------------------------------------------------------- acceptance

  datatype Policy = Policy(
    enabled: bool, zeroCost: bool, currency: Option<Id>, maxTasks: nat, maxUnits: nat, maxMinorUnits: nat,
    retention: Time)

  const MAX_RETENTION: Time := 31_536_000_000_000

  predicate ValidAdmission(p: Policy) {
    && p.retention <= MAX_RETENTION
    && (p.enabled ==>
          && p.maxTasks >= 1 && p.maxUnits >= 1
          && (if p.zeroCost then p.currency.None? && p.maxMinorUnits == 0
              else p.currency.Some? && p.maxMinorUnits >= 1))
  }

  /** The tasks of one owner and purpose. */
  function TasksFor(rows: map<Id, Rows>, owner: Id, purpose: Purpose): set<Id> {
    set t | t in rows && rows[t].task.Some? && rows[t].task.value.facts.owner == owner
            && rows[t].task.value.facts.purpose == purpose
  }

  /** The hold of a task, when it belongs to this owner and purpose. */
  predicate HoldFor(r: Rows, owner: Id, purpose: Purpose) {
    r.hold.Some? && r.hold.value.owner == owner && r.hold.value.purpose == purpose
  }

  function UnitsOf(r: Rows, owner: Id, purpose: Purpose): nat {
    if HoldFor(r, owner, purpose) && !r.hold.value.state.Released? then r.hold.value.cost.quotaUnits else 0
  }

  function MinorUnitsOf(r: Rows, owner: Id, purpose: Purpose): nat {
    if HoldFor(r, owner, purpose) && r.hold.value.state.Reserved? then r.hold.value.cost.minorUnits else 0
  }

  function ActiveOf(r: Rows, owner: Id, purpose: Purpose): nat {
    if r.task.Some? && r.task.value.facts.owner == owner && r.task.value.facts.purpose == purpose
       && !Terminal(r.task.value.status) then 1 else 0
  }

  datatype Usage = Usage(tasks: nat, units: nat, minorUnits: nat)

  function ActiveColumn(rows: map<Id, Rows>, owner: Id, purpose: Purpose): map<Id, nat> {
    map t | t in rows :: ActiveOf(rows[t], owner, purpose)
  }

  function UnitsColumn(rows: map<Id, Rows>, owner: Id, purpose: Purpose): map<Id, nat> {
    map t | t in rows :: UnitsOf(rows[t], owner, purpose)
  }

  function MinorUnitsColumn(rows: map<Id, Rows>, owner: Id, purpose: Purpose): map<Id, nat> {
    map t | t in rows :: MinorUnitsOf(rows[t], owner, purpose)
  }

  /** The snapshot admission is checked against: active tasks, reserved and
      consumed quota, reserved budget. */
  function UsageOf(rows: map<Id, Rows>, owner: Id, purpose: Purpose): Usage {
    Usage(Sum(ActiveColumn(rows, owner, purpose)), Sum(UnitsColumn(rows, owner, purpose)),
          Sum(MinorUnitsColumn(rows, owner, purpose)))
  }

  function Admit(p: Policy, cost: Cost, u: Usage): Result<(), Error> {
    if !p.enabled || !ValidAdmission(p) then Err(AdmissionRefused)
    else if p.zeroCost && (cost.minorUnits != 0 || cost.currency.Some? || u.minorUnits != 0) then Err(AdmissionRefused)
    else if !p.zeroCost && (cost.minorUnits == 0 || cost.currency != p.currency || cost.quotaUnits == 0) then
      Err(AdmissionRefused)
    else if u.tasks >= p.maxTasks || u.units + cost.quotaUnits > p.maxUnits
      || u.minorUnits + cost.minorUnits > p.maxMinorUnits
    then Err(AdmissionRefused)
    else Ok(())
  }

  /** Earlier tasks with the same idempotency key or the same content. */
  function Prior(rows: map<Id, Rows>, f: Facts): set<Id> {
    set t | t in TasksFor(rows, f.owner, f.purpose)
            && (rows[t].task.value.facts.idempotency == f.idempotency || rows[t].task.value.facts.dedupe == f.dedupe)
  }

  /** A succeeded content match under another key whose output must be looked up. */
  predicate NeedsOutput(r: Rows, f: Facts, p: Policy)
    requires r.task.Some?
  {
    p.retention > 0 && r.task.value.status.Succeeded? && r.task.value.facts.idempotency != f.idempotency
  }

  predicate Reusable(r: Rows, f: Facts, p: Policy, at: Time)
    requires r.task.Some?
  {
    var t := r.task.value;
    && t.facts.idempotency != f.idempotency && t.facts.dedupe == f.dedupe && t.facts.policyVersion == f.policyVersion
    && t.revokedAt.None? && (!Terminal(t.status) || t.status.Succeeded?)
    && !(NeedsOutput(r, f, p) && r.output.Some? && OutputExpired(r.output.value.asset.publishedAt, p.retention, at))
  }

  datatype Match = Conflict | Replay | Duplicate | Fresh

  function Classify(rows: map<Id, Rows>, f: Facts, p: Policy, at: Time): Result<Match, Error> {
    var prior := Prior(rows, f);
    if exists t :: t in prior && NeedsOutput(rows[t], f, p) && rows[t].output.None? then Err(Unavailable)
    else if exists t :: t in prior && rows[t].task.value.facts.idempotency == f.idempotency
                        && !(rows[t].task.value.facts.dedupe == f.dedupe
                             && rows[t].task.value.facts.policyVersion == f.policyVersion)
    then Ok(Conflict)
    else if exists t :: t in prior && rows[t].task.value.facts.idempotency == f.idempotency then Ok(Replay)
    else if exists t :: t in prior && Reusable(rows[t], f, p, at) then Ok(Duplicate)
    else Ok(Fresh)
  }

  function InputCategory(role: Role): Category { if role.Person? then PersonPhoto else OrdinaryImage }

  predicate UsableInput(db: Db, owner: Id, ref: Reference) {
    && ref.media in db.files.media && !ref.role.LookImage?
    && var a := db.files.media[ref.media];
       && a.owner == owner && a.purpose.GenerationInput? && a.category == InputCategory(ref.role) && a.jpeg
       && a.sha == ref.sha && a.status.Ready? && a.sourceDeletedAt.None?
       && a.consent.Some? && a.consent.value in db.files.consents
       && var c := db.files.consents[a.consent.value];
          && c.owner == owner && c.purpose.GenerationInput? && c.category == a.category
          && c.policy == GENERATION_INPUT_POLICY && c.withdrawnAt.None?
          && exists d :: d in a.derivations && d.normalized && d.version.Some?
  }

  predicate ImageInputs(db: Db, f: Facts) {
    && (forall ref :: ref in f.references ==> UsableInput(db, f.owner, ref))
    && ((exists ref :: ref in f.references && ref.role.Person?) ==> f.owner in db.users && db.users[f.owner].adult)
  }

  /** The task whose published output a model request may be built on. */
  predicate UsableSource(r: Rows, f: Facts, retention: Time, at: Time) {
    && r.task.Some? && r.output.Some? && f.imageAsset.Some?
    && var t, a := r.task.value, r.output.value.asset;
       && Some(a.id) == f.imageAsset && a.owner == f.owner
       && t.facts.owner == f.owner && t.status.Succeeded? && t.revokedAt.None? && t.result == Some(a.id)
       && a.look == f.look && a.lookRevision == f.lookRevision && a.purpose.Image? && a.contentType.Jpeg?
       && Some(a.sha) == f.imageSha && r.output.value.confirmedAt.Some? && ValidAsset(t, a)
       && !OutputExpired(a.publishedAt, retention, at)
  }

  predicate InputsAvailable(db: Db, f: Facts, retention: Time, at: Time) {
    if f.purpose.Image? then ImageInputs(db, f)
    else exists t :: t in db.rows && UsableSource(db.rows[t], f, retention, at)
  }

  function NewTask(f: Facts): Task {
    Task(f, Queued, 1, NotStarted, 0, None, None, None, None, None, None, None, None, None, 0, 0, None, f.createdAt)
  }

  function NewHold(f: Facts): Option<Reservation> {
    if HasCost(f.cost) then Some(Reservation(f.id, f.owner, f.purpose, f.cost, Reserved, 1, f.createdAt, f.createdAt))
    else None
  }

  /** Admission, idempotency and input checks, and the new task with its hold. A
      replay or a content duplicate changes nothing. */
  function Accept(db: Db, f: Facts, p: Policy): Result<Db, Error> {
    var at := f.createdAt;
    if !IsActive(db, f.owner) then Err(NotFound)
    else
      var match_ :- Classify(db.rows, f, p, at);
      if !ValidFacts(f) then Err(InvalidInput)
      else if match_.Conflict? then Err(IdempotencyConflict)
      else if !match_.Fresh? then Ok(db)
      else
        var _ :- Admit(p, f.cost, UsageOf(db.rows, f.owner, f.purpose));
        if !InputsAvailable(db, f, p.retention, at) then Err(SourceUnavailable)
        else if f.id in db.used then Err(Unavailable)
        else Ok(db.(rows := db.rows[f.id := Rows(Some(NewTask(f)), NewHold(f), None, map[], [])],
                    used := db.used + {f.id}))
  }

  // ------------------------------------------------------------------ cascades

  /** One cleanup request per listed task, in order, re-reading each row. */
  function EnsureEach(rows: map<Id, Rows>, ids: seq<Id>, scope: Scope, account: Option<Id>, at: Time)
    : Result<map<Id, Rows>, Error>
    decreases |ids|
  {
    if ids == [] then Ok(rows)
    else if ids[0] !in rows then Err(NotFound)
    else
      var r :- EnsureCleanup(rows[ids[0]], scope, None, account, at);
      EnsureEach(rows[ids[0] := r], ids[1..], scope, account, at)
  }

  /** The model tasks of an owner that were built on one image output. */
  function ModelsOf(rows: map<Id, Rows>, owner: Id, image: Id): set<Id> {
    set t | t in rows && rows[t].task.Some? && rows[t].task.value.facts.owner == owner
            && rows[t].task.value.facts.purpose.Model? && rows[t].task.value.facts.imageAsset == Some(image)
  }

  function EnsureDependents(rows: map<Id, Rows>, t: Task, at: Time): Result<map<Id, Rows>, Error> {
    if !t.facts.purpose.Image? || t.result.None? then Ok(rows)
    else EnsureEach(rows, Ascending(ModelsOf(rows, t.facts.owner, t.result.value)), TaskScope, None, at)
  }

  predicate References(t: Task, media: set<Id>) { exists ref :: ref in t.facts.references && ref.media in media }

  function FirstReference(refs: seq<Reference>, media: set<Id>): Option<Id> {
    if refs == [] then None
    else if refs[0].media in media then Some(refs[0].media)
    else FirstReference(refs[1..], media)
  }

  function SourceTasks(rows: map<Id, Rows>, owner: Id, media: set<Id>): set<Id> {
    set t | t in rows && rows[t].task.Some? && rows[t].task.value.facts.owner == owner
      && References(rows[t].task.value, media)
  }

  /** Revokes each listed task for its source media, and the models built on it. */
  function EnsureSources(rows: map<Id, Rows>, ids: seq<Id>, media: set<Id>, at: Time): Result<map<Id, Rows>, Error>
    decreases |ids|
  {
    if ids == [] then Ok(rows)
    else if ids[0] !in rows then Err(NotFound)
    else
      var t :- Load(rows[ids[0]]);
      var r :- EnsureCleanup(rows[ids[0]], SourceScope, FirstReference(t.facts.references, media), None, at);
      var closed :- EnsureDependents(rows[ids[0] := r], t, at);
      EnsureSources(closed, ids[1..], media, at)
  }

  function RequestSourceCleanup(db: Db, owner: Id, media: set<Id>, at: Time): Result<Db, Error> {
    var rows :- EnsureSources(db.rows, Ascending(SourceTasks(db.rows, owner, media)), media, at);
    Ok(db.(rows := rows))
  }

  function RequestTaskCleanup(db: Db, owner: Id, task: Id, at: Time): Result<Db, Error> {
    if task !in db.rows then Err(NotFound)
    else
      var t :- Load(db.rows[task]);
      if t.facts.owner != owner then Err(NotFound)
      else
        var r :- EnsureCleanup(db.rows[task], TaskScope, None, None, at);
        var rows :- EnsureDependents(db.rows[task := r], t, at);
        Ok(db.(rows := rows))
  }

  // --------------------------------------------------------------------- media

  function CreateUpload(
      db: Db, id: Id, owner: Id, purpose: MediaPurpose, category: Category, consent: Id, jpeg: bool, sha: Id, at: Time)
    : Result<Db, Error>
  {
    if owner !in db.users then Err(NotFound)
    else if !IsActive(db, owner) then Err(MediaConflict)
    else
      var files :- CreateMedia(db.files, id, owner, purpose, category, consent, jpeg, sha, at);
      if id in db.used then Err(Unavailable) else Ok(db.(files := files, used := db.used + {id}))
  }

  function CreateConsent(db: Db, id: Id, owner: Id, purpose: MediaPurpose, category: Category, policy: Id)
    : Result<Db, Error>
  {
    if owner !in db.users || id in db.used then Err(Unavailable)
    else Ok(db.(files :=
                db.files.(consents := db.files.consents[id := Consent(owner, purpose, category, policy, None)]),
                used := db.used + {id}))
  }

  /** The assets uploaded under a consent whose source is not yet deleted. */
  function GivenUnder(files: MediaDb, owner: Id, consent: Id, purpose: MediaPurpose): set<Id> {
    set m | m in files.media && files.media[m].owner == owner && files.media[m].consent == Some(consent)
            && files.media[m].purpose == purpose && files.media[m].sourceDeletedAt.None?
  }

  function WithdrawConsent(db: Db, owner: Id, consent: Id, at: Time): Result<Db, Error> {
    if consent !in db.files.consents || db.files.consents[consent].owner != owner then Err(NotFound)
    else
      var c := db.files.consents[consent];
      var withdrawn := if c.withdrawnAt.None? then c.(withdrawnAt := Some(at)) else c;
      var saved := db.(files := db.files.(consents := db.files.consents[consent := withdrawn]));
      if !c.purpose.GenerationInput? then Ok(saved)
      else
        var media := GivenUnder(db.files, owner, consent, c.purpose);
        if media == {} then Ok(saved) else RequestSourceCleanup(saved, owner, media, at)
  }

  /** `blocked` is the verdict of the post and diary tables, which this module
      does not hold: a post still refers to the asset, or a diary entry would be
      left with neither body nor media. */
  function DeleteMedia(db: Db, owner: Id, media: Id, blocked: bool, at: Time): Result<Db, Error> {
    if !IsActive(db, owner) || media !in db.files.media || db.files.media[media].owner != owner then Err(NotFound)
    else if media in db.files.deletions then Ok(db)
    else if db.files.media[media].status.Deleted? then Err(MediaConflict)
    else
      var revoked :- RequestSourceCleanup(db, owner, {media}, at);
      if blocked then Err(MediaConflict) else Ok(revoked.(files := RequestDeletion(db.files, media, None, at)))
  }

  // ------------------------------------------------------------ account erasure

  /** Every asset of the owner that is not deleted yet. */
  function Remaining(files: MediaDb, owner: Id): set<Id> {
    set m | m in files.media && files.media[m].owner == owner && !files.media[m].status.Deleted?
  }

  predicate LinkedPending(r: Rows, account: Id) {
    exists s :: s in r.cleanups && r.cleanups[s].account == Some(account) && !r.cleanups[s].status.Complete?
  }

  /** The requests of an account deletion that are not complete, by task. */
  function RemainingCleanups(rows: map<Id, Rows>, account: Id): set<Id> {
    set t | t in rows && LinkedPending(rows[t], account)
  }

  /** The rows of one task after its owner is erased: the owner's rows are gone,
      and so are the requests linked to the account deletion. */
  function EraseRows(r: Rows, owner: Id, account: Id): Rows {
    var mine := r.task.Some? && r.task.value.facts.owner == owner;
    Rows(if mine then None else r.task,
         if r.hold.Some? && r.hold.value.owner == owner then None else r.hold,
         if r.output.Some? && r.output.value.asset.owner == owner then None else r.output,
         r.cleanups - (set s | s in r.cleanups && r.cleanups[s].account == Some(account)),
         if mine then [] else r.audits)
  }

  /** Deleting the user row cascades to sessions, media, deletions and consents. */
  function Erase(db: Db, user: Id, at: Time): Db
    requires user in db.accounts
  {
    Db(db.users - {user}, db.sessions - SessionsOf(db.sessions, user),
       db.accounts[user := db.accounts[user].(completedAt := Some(at))],
       EraseFiles(db.files, user),
       map t | t in db.rows :: EraseRows(db.rows[t], user, db.accounts[user].id), db.used)
  }

  /** Erases the account when nothing of it remains to be deleted. */
  function FinalizeIfReady(db: Db, user: Id, at: Time): Result<Db, Error> {
    if user !in db.accounts || db.accounts[user].completedAt.Some? then Ok(db)
    else if Remaining(db.files, user) != {} || RemainingCleanups(db.rows, db.accounts[user].id) != {} then Ok(db)
    else if user !in db.users || !db.users[user].status.Leaving? then Err(Authentication)
    else Ok(Erase(db, user, at))
  }

  function CompleteDeletion(db: Db, event: Id, media: Id, at: Time): Result<Db, Error> {
    if (event, MediaDelete) in db.files.receipts then Ok(db)
    else
      var files :- FinishDeletion(db.files, event, media, at);
      FinalizeIfReady(db.(files := files), files.media[media].owner, at)
  }

  function CompleteCleanup(db: Db, claimed: Cleanup, at: Time): Result<Db, Error> {
    if claimed.task !in db.rows then Err(NotFound)
    else
      var r :- CompleteTaskCleanup(db.rows[claimed.task], claimed, at);
      var saved := db.(rows := db.rows[claimed.task := r]);
      if r.cleanups[claimed.scope].account.Some? then FinalizeIfReady(saved, r.cleanups[claimed.scope].owner, at)
      else Ok(saved)
  }

  function TasksOf(rows: map<Id, Rows>, owner: Id): set<Id> {
    set t | t in rows && rows[t].task.Some? && rows[t].task.value.facts.owner == owner
  }

  /** One asset of a closing account: linked if its deletion was already
      requested, requested otherwise. */
  function CloseAsset(f: MediaDb, id: Id, account: Id, at: Time): MediaDb
    requires id in f.media
  {
    if id in f.deletions then
      var linked := f.(deletions := f.deletions[id := f.deletions[id].(account := Some(account))]);
      if f.media[id].status.Deleting? then linked
      else Put(linked, id, f.media[id].(status := Deleting, updatedAt := at))
    else RequestDeletion(f, id, Some(account), at)
  }

  function CloseMedia(f: MediaDb, ids: seq<Id>, account: Id, at: Time): Result<MediaDb, Error>
    decreases |ids|
  {
    if ids == [] then Ok(f)
    else if ids[0] !in f.media || (ids[0] in f.deletions && f.deletions[ids[0]].owner != f.media[ids[0]].owner) then
      Err(Unavailable)
    else CloseMedia(CloseAsset(f, ids[0], account, at), ids[1..], account, at)
  }

  /** The account's own rows: the request, the leaving user, no sessions. */
  function CloseUser(db: Db, user: Id, request: Id, at: Time): Db
    requires user in db.users
  {
    db.(users := db.users[user := db.users[user].(status := Leaving, revision := db.users[user].revision + 1)],
        sessions := db.sessions - SessionsOf(db.sessions, user),
        accounts := db.accounts[user := AccountDeletion(request, at, None)], used := db.used + {request})
  }

  /** Closes the account: every task revoked and covered by a linked request,
      sessions gone, every asset on its way out. */
  function CloseAccount(db: Db, user: Id, request: Id, at: Time): Result<Db, Error>
    requires user in db.users
  {
    var rows :- EnsureEach(db.rows, Ascending(TasksOf(db.rows, user)), AccountScope, Some(request), at);
    var files :- CloseMedia(db.files, Ascending(Remaining(db.files, user)), request, at);
    Ok(CloseUser(db, user, request, at).(rows := rows, files := files))
  }

  /** An account without assets is finalized in the closing transaction itself. */
  function BeginAccountDeletion(db: Db, user: Id, request: Id, at: Time): Result<Db, Error> {
    if user !in db.users then Err(NotFound)
    else if !IsActive(db, user) then Err(Authentication)
    else if user in db.accounts || request in db.used then Err(AccountConflict)
    else
      var closed :- CloseAccount(db, user, request, at);
      if Remaining(db.files, user) == {} then FinalizeIfReady(closed, user, at) else Ok(closed)
  }

  // ----------------------------------------------------------------- operations

  datatype Op =
    | AddUser(user: Id, role: UserRole)
    | AddSession(token: Id, user: Id, expiresAt: Time)
    | EndSession(token: Id)
    | SetStatus(user: Id, expected: nat, status: UserStatus)
    | Declare(user: Id, adult: bool)
    | GiveConsent(consent: Id, user: Id, purpose: MediaPurpose, category: Category, policy: Id)
    | EndConsent(user: Id, consent: Id, at: Time)
    | Upload(media: Id, user: Id, purpose: MediaPurpose, category: Category, consent: Id, jpeg: bool, sha: Id, at: Time)
    | Files(mediaOp: MediaOp)
    | Remove(user: Id, media: Id, blocked: bool, at: Time)
    | FinishRemoval(event: Id, media: Id, at: Time)
    | Request(facts: Facts, admission: Policy)
    | Work(task: Id, taskOp: TaskOp)
    | Publish(lease: Lease, asset: Asset, at: Time)
    | RevokeTask(user: Id, task: Id, at: Time)
    | RevokeSource(user: Id, media: Id, at: Time)
    | FinishCleanup(claimed: Cleanup, at: Time)
    | LeaveAccount(user: Id, request: Id, at: Time)

  /** Only an active administrator may reconcile a submission. */
  function WorkOn(db: Db, task: Id, op: TaskOp, timeout: Time): Result<Db, Error> {
    if op.Reconcile? && !(IsActive(db, op.actor) && db.users[op.actor].role.Admin?) then Err(Forbidden)
    else if task !in db.rows then
      if !op.Expire? then Err(NotFound)
      else
        var _ :- ExpireTask(NO_ROWS, op.provider, op.cutoff, op.at, op.versions);
        Ok(db)
    else
      var r :- OnTask(db.rows[task], op, timeout);
      Ok(db.(rows := db.rows[task := r]))
  }

  /** A new output takes an unused identifier. */
  function PublishOn(db: Db, lease: Lease, asset: Asset, timeout: Time, at: Time): Result<Db, Error> {
    if lease.task !in db.rows then Err(NotFound)
    else
      var r :- PublishTask(db.rows[lease.task], lease, asset, timeout, at);
      if r == db.rows[lease.task] then Ok(db)
      else if asset.id in db.used then Err(Unavailable)
      else Ok(db.(rows := db.rows[lease.task := r], used := db.used + {asset.id}))
  }

  /** The effect of one committed transaction; `timeout` is the configured task
      processing limit. */
  function Apply(db: Db, op: Op, timeout: Time): Result<Db, Error> {
    match op
    case AddUser(user, role) => CreateUser(db, user, role)
    case AddSession(token, user, expiresAt) => CreateSession(db, token, user, expiresAt)
    case EndSession(token) =>
      if token in db.sessions then Ok(db.(sessions := db.sessions - {token})) else Err(Authentication)
    case SetStatus(user, expected, status) => SetUserStatus(db, user, expected, status)
    case Declare(user, adult) =>
      if user !in db.users then Err(NotFound)
      else Ok(db.(users := db.users[user := db.users[user].(adult := adult)]))
    case GiveConsent(consent, user, purpose, category, policy) =>
      CreateConsent(db, consent, user, purpose, category, policy)
    case EndConsent(user, consent, at) => WithdrawConsent(db, user, consent, at)
    case Upload(media, user, purpose, category, consent, jpeg, sha, at) =>
      CreateUpload(db, media, user, purpose, category, consent, jpeg, sha, at)
    case Files(mediaOp) =>
      var files :- OnMedia(db.files, mediaOp);
      Ok(db.(files := files))
    case Remove(user, media, blocked, at) => DeleteMedia(db, user, media, blocked, at)
    case FinishRemoval(event, media, at) => CompleteDeletion(db, event, media, at)
    case Request(facts, admission) => Accept(db, facts, admission)
    case Work(task, taskOp) => WorkOn(db, task, taskOp, timeout)
    case Publish(lease, asset, at) => PublishOn(db, lease, asset, timeout, at)
    case RevokeTask(user, task, at) => RequestTaskCleanup(db, user, task, at)
    case RevokeSource(user, media, at) => RequestSourceCleanup(db, user, {media}, at)
    case FinishCleanup(claimed, at) => CompleteCleanup(db, claimed, at)
    case LeaveAccount(user, request, at) => BeginAccountDeletion(db, user, request, at)
  }

  /** A failed transaction leaves the committed state as it was. */
  function Step(db: Db, op: Op, timeout: Time): Db {
    match Apply(db, op, timeout) case Ok(next) => next case Err(_) => db
  }

  function Run(db: Db, ops: seq<Op>, timeout: Time): Db
    decreases |ops|
  {
    if ops == [] then db else Run(Step(db, ops[0], timeout), ops[1..], timeout)
  }
}
