/** Concrete runs from the empty tables: putting runs together, and the common first
    part of the examples -- a user with two checked images whose generation task has
    been sent to the provider. */
module ExampleRuns {
  import opened Base
  import opened GenerationTask
  import opened GenerationRows
  import opened Media
  import opened GenerationStore

  // ---------------------------------------------------------------- putting runs together

  lemma {:induction false} RunConcat(db: Db, first: seq<Op>, rest: seq<Op>, timeout: Time)
    ensures Run(db, first + rest, timeout) == Run(Run(db, first, timeout), rest, timeout)
    decreases |first|
  {
    if first == [] {
      assert first + rest == rest;
    } else {
      assert (first + rest)[1..] == first[1..] + rest;
      RunConcat(Step(db, first[0], timeout), first[1..], rest, timeout);
    }
  }

  lemma AndThen(ops: seq<Op>, db: Db, op: Op, next: Db, timeout: Time) returns (longer: seq<Op>)
    requires Run(EMPTY, ops, timeout) == db && Apply(db, op, timeout) == Ok(next)
    ensures longer == ops + [op] && Run(EMPTY, longer, timeout) == next
  {
    longer := ops + [op];
    RunConcat(EMPTY, ops, [op], timeout);
    assert [op][1..] == [];
    assert Run(next, [], timeout) == next;
  }

  lemma AndStep(ops: seq<Op>, db: Db, op: Op, next: Db, timeout: Time) returns (longer: seq<Op>)
    requires Run(EMPTY, ops, timeout) == db && Step(db, op, timeout) == next
    ensures longer == ops + [op] && Run(EMPTY, longer, timeout) == next
  {
    longer := ops + [op];
    RunConcat(EMPTY, ops, [op], timeout);
    assert [op][1..] == [];
    assert Run(next, [], timeout) == next;
  }

  /** Several transactions on the rows of one task. */
  function OnTaskAll(r: Rows, ops: seq<TaskOp>, timeout: Time): Result<Rows, Error>
    decreases |ops|
  {
    if ops == [] then Ok(r)
    else if ops[0].Reconcile? then Err(Forbidden)
    else
      var next :- OnTask(r, ops[0], timeout);
      OnTaskAll(next, ops[1..], timeout)
  }

  function Works(id: Id, ops: seq<TaskOp>): (works: seq<Op>)
    ensures |works| == |ops| && forall i :: 0 <= i < |ops| ==> works[i] == Work(id, ops[i])
  {
    seq(|ops|, i requires 0 <= i < |ops| => Work(id, ops[i]))
  }

  lemma OneWork(db: Db, id: Id, op: TaskOp, r: Rows, timeout: Time)
    requires id in db.rows && !op.Reconcile? && OnTask(db.rows[id], op, timeout) == Ok(r)
    ensures Step(db, Work(id, op), timeout) == db.(rows := db.rows[id := r])
  {
  }

  lemma {:induction false} RunWorks(db: Db, id: Id, ops: seq<TaskOp>, timeout: Time)
    requires id in db.rows && OnTaskAll(db.rows[id], ops, timeout).Ok?
    ensures Run(db, Works(id, ops), timeout) == db.(rows := db.rows[id := OnTaskAll(db.rows[id], ops, timeout).value])
    decreases |ops|
  {
    if ops == [] {
      assert Works(id, ops) == [] && db.rows[id := db.rows[id]] == db.rows;
    } else {
      var r := OnTask(db.rows[id], ops[0], timeout).value;
      OneWork(db, id, ops[0], r, timeout);
      var next := db.(rows := db.rows[id := r]);
      RunWorks(next, id, ops[1..], timeout);
      assert Works(id, ops)[1..] == Works(id, ops[1..]);
      assert db.rows[id := r][id := OnTaskAll(r, ops[1..], timeout).value]
             == db.rows[id := OnTaskAll(r, ops[1..], timeout).value];
    }
  }

  lemma Worked(ops: seq<Op>, db: Db, id: Id, works: seq<TaskOp>, r: Rows, timeout: Time) returns (longer: seq<Op>)
    requires Run(EMPTY, ops, timeout) == db && id in db.rows && OnTaskAll(db.rows[id], works, timeout) == Ok(r)
    ensures longer == ops + Works(id, works) && Run(EMPTY, longer, timeout) == db.(rows := db.rows[id := r])
  {
    longer := ops + Works(id, works);
    RunConcat(EMPTY, ops, Works(id, works), timeout);
    RunWorks(db, id, works, timeout);
  }

  // ----------------------------------------------------------------- an accepted task

  /** No processing limit. */
  const NO_LIMIT: Time := 0

  const ALICE: Id := 1
  const PERSON_CONSENT: Id := 2
  const GARMENT_CONSENT: Id := 3
  const PHOTO: Id := 4
  const SHIRT: Id := 5
  const TASK: Id := 6

  const LOOK := Facts(TASK, ALICE, 1, 1, Image, 1,
                      [Reference(PHOTO, Person, 0, 1, 44), Reference(SHIRT, Garment, 1, 1, 55)],
                      None, None, Cost(None, 0, 1), 1, 10, 100, 200, 10)

  const POLICY := Policy(true, true, None, 5, 5, 0, 1000)

  function Consented(category: Category): Consent {
    Consent(ALICE, GenerationInput, category, GENERATION_INPUT_POLICY, None)
  }

  function ReadyImage(consent: Id, category: Category, sha: Id, at: Time): MediaAsset {
    MediaAsset(ALICE, Some(consent), GenerationInput, category, true, sha, Some(1), Ready, Some(Checked(0)),
               at + UPLOAD_LIFETIME, None, [Derivation(sha, Some(1), true, at)], at)
  }

  const ALICE_ROW := User(Active, Member, 1, true)

  const CONSENTS := map[PERSON_CONSENT := Consented(PersonPhoto), GARMENT_CONSENT := Consented(OrdinaryImage)]

  const REGISTERED :=
    Db(map[ALICE := ALICE_ROW], map[], map[], MediaDb(map[], map[], CONSENTS, {}), map[],
       {ALICE, PERSON_CONSENT, GARMENT_CONSENT})

  const TWO_READY := MediaDb(
    map[PHOTO := ReadyImage(PERSON_CONSENT, PersonPhoto, 44, 2),
        SHIRT := ReadyImage(GARMENT_CONSENT, OrdinaryImage, 55, 2)],
    map[], CONSENTS, {(PHOTO, MediaCheck), (SHIRT, MediaCheck)})

  const EQUIPPED := REGISTERED.(files := TWO_READY, used := {ALICE, PERSON_CONSENT, GARMENT_CONSENT, PHOTO, SHIRT})

  const QUEUED := Rows(Some(NewTask(LOOK)), NewHold(LOOK), None, map[], [])

  const ACCEPTED := EQUIPPED.(rows := map[TASK := QUEUED], used := EQUIPPED.used + {TASK})

  lemma FirstSteps() returns (ops: seq<Op>)
    ensures Run(EMPTY, ops, NO_LIMIT) == EMPTY.(users := map[ALICE := ALICE_ROW], used := {ALICE})
  {
    assert Run(EMPTY, [], NO_LIMIT) == EMPTY;
    var minor := ALICE_ROW.(adult := false);
    var one := EMPTY.(users := map[ALICE := minor], used := {ALICE});
    assert EMPTY.users[ALICE := minor] == one.users && EMPTY.used + {ALICE} == one.used;
    ops := AndThen([], EMPTY, AddUser(ALICE, Member), one, NO_LIMIT);
    assert one.users[ALICE := ALICE_ROW] == map[ALICE := ALICE_ROW];
    ops := AndThen(ops, one, Declare(ALICE, true), one.(users := map[ALICE := ALICE_ROW]), NO_LIMIT);
  }

  lemma Register() returns (ops: seq<Op>)
    ensures Run(EMPTY, ops, NO_LIMIT) == REGISTERED
  {
    ops := FirstSteps();
    var a := EMPTY.(users := map[ALICE := ALICE_ROW], used := {ALICE});
    var b := a.(files := a.files.(consents := map[PERSON_CONSENT := Consented(PersonPhoto)]),
                used := {ALICE, PERSON_CONSENT});
    assert a.files.consents[PERSON_CONSENT := Consented(PersonPhoto)] == b.files.consents
           && a.used + {PERSON_CONSENT} == b.used;
    ops := AndThen(ops, a, GiveConsent(PERSON_CONSENT, ALICE, GenerationInput, PersonPhoto, GENERATION_INPUT_POLICY), b,
                   NO_LIMIT);
    assert b.files.consents[GARMENT_CONSENT := Consented(OrdinaryImage)] == CONSENTS;
    assert b.used + {GARMENT_CONSENT} == REGISTERED.used;
    ops := AndThen(ops, b, GiveConsent(GARMENT_CONSENT, ALICE, GenerationInput, OrdinaryImage, GENERATION_INPUT_POLICY),
                    REGISTERED, NO_LIMIT);
  }

  /** Uploading one image and having it checked. */
  function CheckedImage(files: MediaDb, id: Id, consent: Id, category: Category, sha: Id): MediaDb {
    files.(media := files.media[id := ReadyImage(consent, category, sha, 2)],
           receipts := files.receipts + {(id, MediaCheck)})
  }

  function Checks(id: Id, sha: Id): seq<MediaOp> {
    [CompleteUpload(ALICE, id, 1, 2), BeginCheck(id, 2),
     CompleteCheck(id, id, Some(Derivation(sha, Some(1), true, 2)), true, 0, 2)]
  }

  function OnMediaAll(files: MediaDb, ops: seq<MediaOp>): Result<MediaDb, Error>
    decreases |ops|
  {
    if ops == [] then Ok(files)
    else
      var next :- OnMedia(files, ops[0]);
      OnMediaAll(next, ops[1..])
  }

  function FileOps(ops: seq<MediaOp>): (files: seq<Op>)
    ensures |files| == |ops| && forall i :: 0 <= i < |ops| ==> files[i] == Files(ops[i])
  {
    seq(|ops|, i requires 0 <= i < |ops| => Files(ops[i]))
  }

  lemma {:induction false} RunFiles(db: Db, ops: seq<MediaOp>, timeout: Time)
    requires OnMediaAll(db.files, ops).Ok?
    ensures Run(db, FileOps(ops), timeout) == db.(files := OnMediaAll(db.files, ops).value)
    decreases |ops|
  {
    if ops == [] {
      assert FileOps(ops) == [];
    } else {
      var files := OnMedia(db.files, ops[0]).value;
      assert Step(db, Files(ops[0]), timeout) == db.(files := files);
      RunFiles(db.(files := files), ops[1..], timeout);
      assert FileOps(ops)[1..] == FileOps(ops[1..]);
    }
  }

  lemma ChecksPass(files: MediaDb, id: Id, consent: Id, category: Category, sha: Id)
    requires consent in files.consents && files.consents[consent] == Consented(category)
    requires id in files.media && (id, MediaCheck) !in files.receipts
    requires files.media[id] == ReadyImage(consent, category, sha, 2).(
               version := None, status := PendingUpload, reason := None, derivations := [])
    ensures OnMediaAll(files, Checks(id, sha)) == Ok(CheckedImage(files, id, consent, category, sha))
  {
    var ready := ReadyImage(consent, category, sha, 2);
    var derivation := Derivation(sha, Some(1), true, 2);
    var a := Put(files, id, ready.(status := Uploaded, reason := None, derivations := []));
    var b := Put(files, id, ready.(status := Checking, reason := None, derivations := []));
    var c := CheckedImage(files, id, consent, category, sha);
    assert OnMedia(files, CompleteUpload(ALICE, id, 1, 2)) == Ok(a);
    assert a.media[id := b.media[id]] == b.media;
    assert OnMedia(a, BeginCheck(id, 2)) == Ok(b);
    assert b.media[id := ready] == c.media && [] + [derivation] == ready.derivations;
    assert OnMedia(b, CompleteCheck(id, id, Some(derivation), true, 0, 2)) == Ok(c);
    ThreeMedia(files, CompleteUpload(ALICE, id, 1, 2), a, BeginCheck(id, 2), b,
               CompleteCheck(id, id, Some(derivation), true, 0, 2), c);
  }

  lemma ThreeMedia(files: MediaDb, p: MediaOp, a: MediaDb, q: MediaOp, b: MediaDb, r: MediaOp, c: MediaDb)
    requires OnMedia(files, p) == Ok(a) && OnMedia(a, q) == Ok(b) && OnMedia(b, r) == Ok(c)
    ensures OnMediaAll(files, [p, q, r]) == Ok(c)
  {
    assert [p, q, r][1..] == [q, r] && [q, r][1..] == [r] && [r][1..] == [];
    assert OnMediaAll(c, []) == Ok(c);
    assert OnMediaAll(b, [r]) == Ok(c);
    assert OnMediaAll(a, [q, r]) == Ok(c);
  }

  lemma UploadImage(before: seq<Op>, db: Db, id: Id, consent: Id, category: Category, sha: Id) returns (ops: seq<Op>)
    requires Run(EMPTY, before, NO_LIMIT) == db && IsActive(db, ALICE) && id !in db.used && id !in db.files.media
    requires consent in db.files.consents && db.files.consents[consent] == Consented(category)
    requires (id, MediaCheck) !in db.files.receipts
    ensures Run(EMPTY, ops, NO_LIMIT)
            == db.(files := CheckedImage(db.files, id, consent, category, sha), used := db.used + {id})
  {
    var pending := ReadyImage(consent, category, sha, 2).(
      version := None, status := PendingUpload, reason := None, derivations := []);
    var uploaded := db.(files := Put(db.files, id, pending), used := db.used + {id});
    ops := AndThen(before, db, Upload(id, ALICE, GenerationInput, category, consent, true, sha, 2), uploaded, NO_LIMIT);
    ChecksPass(uploaded.files, id, consent, category, sha);
    RunFiles(uploaded, Checks(id, sha), NO_LIMIT);
    RunConcat(EMPTY, ops, FileOps(Checks(id, sha)), NO_LIMIT);
    assert db.files.media[id := pending][id := ReadyImage(consent, category, sha, 2)]
        == db.files.media[id := ReadyImage(consent, category, sha, 2)];
    ops := ops + FileOps(Checks(id, sha));
  }

  lemma Equip() returns (ops: seq<Op>)
    ensures Run(EMPTY, ops, NO_LIMIT) == EQUIPPED
  {
    ops := Register();
    ops := UploadImage(ops, REGISTERED, PHOTO, PERSON_CONSENT, PersonPhoto, 44);
    var one := REGISTERED.(files := CheckedImage(REGISTERED.files, PHOTO, PERSON_CONSENT, PersonPhoto, 44),
                           used := REGISTERED.used + {PHOTO});
    ops := UploadImage(ops, one, SHIRT, GARMENT_CONSENT, OrdinaryImage, 55);
    assert CheckedImage(one.files, SHIRT, GARMENT_CONSENT, OrdinaryImage, 55).media == TWO_READY.media;
    assert CheckedImage(one.files, SHIRT, GARMENT_CONSENT, OrdinaryImage, 55).receipts == TWO_READY.receipts;
    assert one.used + {SHIRT} == EQUIPPED.used;
  }

  lemma TwoWorks(r: Rows, p: TaskOp, a: Rows, q: TaskOp, b: Rows, timeout: Time)
    requires !p.Reconcile? && OnTask(r, p, timeout) == Ok(a) && !q.Reconcile? && OnTask(a, q, timeout) == Ok(b)
    ensures OnTaskAll(r, [p, q], timeout) == Ok(b)
  {
    assert [p, q][1..] == [q] && [q][1..] == [];
    assert OnTaskAll(b, [], timeout) == Ok(b);
    assert OnTaskAll(a, [q], timeout) == Ok(b);
  }

  // --------------------------------------------------------------- up to the provider

  lemma LookIsValid()
    ensures ValidFacts(LOOK) && Valid(NewTask(LOOK))
  {
    var refs := LOOK.references;
    assert refs[1..] == [Reference(SHIRT, Garment, 1, 1, 55)] && refs[1..][1..] == [];
    assert CountRole([], Person) == 0 && CountRole([], Garment) == 0 && CountRole([], LookImage) == 0;
    assert CountRole(refs[1..], Person) == 0 && CountRole(refs[1..], Garment) == 1
           && CountRole(refs[1..], LookImage) == 0;
    assert CountRole(refs, Person) == 1 && CountRole(refs, Garment) == 1 && CountRole(refs, LookImage) == 0;
  }

  lemma InputsAreReady(db: Db, f: Facts)
    requires db.users == map[ALICE := ALICE_ROW] && db.files == TWO_READY
    requires f.owner == ALICE && f.purpose.Image? && f.references == LOOK.references
    ensures InputsAvailable(db, f, POLICY.retention, f.createdAt)
  {
    forall ref | ref in f.references ensures UsableInput(db, ALICE, ref) {
      var a := db.files.media[ref.media];
      assert a.derivations[0] in a.derivations;
    }
  }

  lemma NothingUsed(owner: Id, purpose: Purpose)
    ensures UsageOf(map[], owner, purpose) == Usage(0, 0, 0)
  {
    assert ActiveColumn(map[], owner, purpose) == map[] && UnitsColumn(map[], owner, purpose) == map[];
    assert MinorUnitsColumn(map[], owner, purpose) == map[];
  }

  lemma LookIsAccepted()
    ensures Accept(EQUIPPED, LOOK, POLICY) == Ok(ACCEPTED)
  {
    LookIsValid();
    InputsAreReady(EQUIPPED, LOOK);
    NothingUsed(ALICE, Image);
    assert Prior(EQUIPPED.rows, LOOK) == {};
    assert EQUIPPED.rows[TASK := QUEUED] == ACCEPTED.rows;
  }

  const LEASE := Lease(TASK, 77, 1, 1, 1020)

  const LEASED_TASK := NewTask(LOOK).(status := Running, revision := 2, fencing := 1, leaseAttempt := 1,
                                      leaseOwner := Some(77), leaseUntil := Some(1020), updatedAt := 20)

  const SENT_TASK := LEASED_TASK.(submission := InFlight, submissionAttempt := 1, startedAt := Some(30), revision := 3,
                                  updatedAt := 30)

  const SENT := QUEUED.(task := Some(SENT_TASK))

  lemma TaskIsSent()
    ensures OnTaskAll(QUEUED, [Claim(SubmissionQueue, None, 77, 20, 1000), Change(LEASE, BeginSubmission, 30)],
                      NO_LIMIT) == Ok(SENT)
  {
    LookIsValid();
    var claim, begin := Claim(SubmissionQueue, None, 77, 20, 1000), Change(LEASE, BeginSubmission, 30);
    var leased := QUEUED.(task := Some(LEASED_TASK));
    assert OnTask(QUEUED, claim, NO_LIMIT) == Ok(leased);
    assert OnTask(leased, begin, NO_LIMIT) == Ok(SENT);
    TwoWorks(QUEUED, claim, leased, begin, SENT, NO_LIMIT);
  }

  lemma Ask() returns (ops: seq<Op>)
    ensures Run(EMPTY, ops, NO_LIMIT) == ACCEPTED
  {
    ops := Equip();
    LookIsAccepted();
    ops := AndThen(ops, EQUIPPED, Request(LOOK, POLICY), ACCEPTED, NO_LIMIT);
  }

  /** The state after the first submission: in flight, outcome not known. */
  lemma Send() returns (ops: seq<Op>)
    ensures Run(EMPTY, ops, NO_LIMIT) == ACCEPTED.(rows := map[TASK := SENT])
  {
    ops := Ask();
    TaskIsSent();
    var works := [Claim(SubmissionQueue, None, 77, 20, 1000), Change(LEASE, BeginSubmission, 30)];
    ops := Worked(ops, ACCEPTED, TASK, works, SENT, NO_LIMIT);
    assert ACCEPTED.rows[TASK := SENT] == map[TASK := SENT];
  }
}
