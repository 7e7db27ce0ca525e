/** Runs that reach the states in which the code falls short of its promises: what
    the exact conditions proved elsewhere exclude does happen. */
module Counterexamples {
  import opened Base
  import opened GenerationTask
  import opened GenerationCleanup
  import opened GenerationRows
  import opened Media
  import opened GenerationStore
  import opened GenerationStoreInvariant
  import opened GenerationStoreAccounts
  import opened GenerationRuns
  import opened GenerationGuarantees
  import opened AccountErasure
  import opened LateIdentity
  import opened ExampleRuns

  // ------------------------------------------------------- a reactivated account

  const IMAGE: Id := 2
  const GOODBYE: Id := 3

  const NEW_USER := User(Active, Member, 1, false)

  const PENDING_ROW := MediaAsset(ALICE, None, CommunityPublish, OrdinaryImage, true, 9, None, PendingUpload, None,
                                  5 + UPLOAD_LIFETIME, None, [], 5)

  const IMAGE_ROW := PENDING_ROW.(status := Uploaded, version := Some(1))

  const PENDING_IMAGE := Db(map[ALICE := NEW_USER], map[], map[], MediaDb(map[IMAGE := PENDING_ROW], map[], map[], {}),
                            map[], {ALICE, IMAGE})

  const ONE_IMAGE := PENDING_IMAGE.(files := MediaDb(map[IMAGE := IMAGE_ROW], map[], map[], {}))

  const CLOSING := Db(
    map[ALICE := User(Leaving, Member, 2, false)], map[], map[ALICE := AccountDeletion(GOODBYE, 6, None)],
    MediaDb(map[IMAGE := IMAGE_ROW.(status := Deleting, updatedAt := 6)],
            map[IMAGE := Deletion(ALICE, Some(GOODBYE), DeletionPending, 0, None)], map[], {}), map[],
              {ALICE, IMAGE, GOODBYE})

  lemma UploadOne() returns (ops: seq<Op>)
    ensures Run(EMPTY, ops, NO_LIMIT) == ONE_IMAGE
  {
    assert Run(EMPTY, [], NO_LIMIT) == EMPTY;
    var one := EMPTY.(users := map[ALICE := NEW_USER], used := {ALICE});
    assert EMPTY.users[ALICE := NEW_USER] == one.users && EMPTY.used + {ALICE} == one.used;
    ops := AndThen([], EMPTY, AddUser(ALICE, Member), one, NO_LIMIT);
    assert one.files.media[IMAGE := PENDING_ROW] == PENDING_IMAGE.files.media && one.used + {IMAGE} == ONE_IMAGE.used;
    ops := AndThen(ops, one, Upload(IMAGE, ALICE, CommunityPublish, OrdinaryImage, 0, true, 9, 5), PENDING_IMAGE,
                   NO_LIMIT);
    assert PENDING_IMAGE.files.media[IMAGE := IMAGE_ROW] == ONE_IMAGE.files.media;
    ops := AndThen(ops, PENDING_IMAGE, Files(CompleteUpload(ALICE, IMAGE, 1, 5)), ONE_IMAGE, NO_LIMIT);
  }

  lemma OneRemaining(files: MediaDb, id: Id)
    requires id in files.media && files.media[id].owner == ALICE && !files.media[id].status.Deleted?
    requires forall m :: m in files.media ==> m == id
    ensures Remaining(files, ALICE) == {id} && Ascending(Remaining(files, ALICE)) == [id]
  {
    assert Remaining(files, ALICE) == {id};
    var q := Ascending({id});
    assert |q| == 1 && q[0] in q;
  }

  lemma ClosingIsCommitted()
    ensures BeginAccountDeletion(ONE_IMAGE, ALICE, GOODBYE, 6) == Ok(CLOSING)
  {
    OneRemaining(ONE_IMAGE.files, IMAGE);
    assert TasksOf(ONE_IMAGE.rows, ALICE) == {} && Ascending({}) == [];
    var closed := CloseAsset(ONE_IMAGE.files, IMAGE, GOODBYE, 6);
    assert closed.media == CLOSING.files.media && closed.deletions == CLOSING.files.deletions;
    assert [IMAGE][1..] == [];
    assert CloseMedia(closed, [], GOODBYE, 6) == Ok(closed);
    assert CloseMedia(ONE_IMAGE.files, [IMAGE], GOODBYE, 6) == Ok(CLOSING.files);
    assert CloseUser(ONE_IMAGE, ALICE, GOODBYE, 6).(files := CLOSING.files) == CLOSING by {
      assert ONE_IMAGE.users[ALICE := CLOSING.users[ALICE]] == CLOSING.users;
      assert ONE_IMAGE.accounts[ALICE := CLOSING.accounts[ALICE]] == CLOSING.accounts;
      assert ONE_IMAGE.sessions - SessionsOf(ONE_IMAGE.sessions, ALICE) == CLOSING.sessions;
      assert ONE_IMAGE.used + {GOODBYE} == CLOSING.used;
    }
    assert CloseAccount(ONE_IMAGE, ALICE, GOODBYE, 6) == Ok(CLOSING);
  }

  const REACTIVATED := CLOSING.(users := map[ALICE := User(Active, Member, 3, false)])

  lemma LastRemovalRefused()
    ensures CompleteDeletion(REACTIVATED, 81, IMAGE, 7) == Err(Authentication)
    ensures DeletionOpen(REACTIVATED, ALICE) && Remaining(REACTIVATED.files, ALICE) == {IMAGE}
  {
    var files := FinishDeletion(REACTIVATED.files, 81, IMAGE, 7).value;
    var saved := REACTIVATED.(files := files);
    assert Remaining(saved.files, ALICE) == {} && RemainingCleanups(saved.rows, GOODBYE) == {};
    ReactivatedIsNeverErased(saved, ALICE, 7);
    OneRemaining(REACTIVATED.files, IMAGE);
  }

  lemma Leave() returns (ops: seq<Op>)
    ensures Run(EMPTY, ops, NO_LIMIT) == CLOSING
  {
    ops := UploadOne();
    ClosingIsCommitted();
    Leaves(ONE_IMAGE, LeaveAccount(ALICE, GOODBYE, 6), ALICE, GOODBYE, 6, CLOSING);
    ops := AndThen(ops, ONE_IMAGE, LeaveAccount(ALICE, GOODBYE, 6), CLOSING, NO_LIMIT);
  }

  lemma Leaves(db: Db, op: Op, user: Id, request: Id, at: Time, next: Db)
    requires op == LeaveAccount(user, request, at) && BeginAccountDeletion(db, user, request, at) == Ok(next)
    ensures Apply(db, op, NO_LIMIT) == Ok(next)
  {
  }

  lemma Reactivate() returns (ops: seq<Op>)
    ensures Run(EMPTY, ops, NO_LIMIT) == REACTIVATED
  {
    ops := Leave();
    assert CLOSING.users[ALICE := User(Active, Member, 3, false)] == REACTIVATED.users;
    ops := AndThen(ops, CLOSING, SetStatus(ALICE, 2, Active), REACTIVATED, NO_LIMIT);
  }

  /** A user uploads an image, leaves, and is set active again; the removal of the
      image, the last item of the deletion, is then refused. */
  lemma ReactivationIsReached() returns (ops: seq<Op>)
    ensures var db := Run(EMPTY, ops, NO_LIMIT);
            && DeletionOpen(db, ALICE) && ALICE in db.users && db.users[ALICE].status.Active?
            && Remaining(db.files, ALICE) == {IMAGE} && CompleteDeletion(db, 81, IMAGE, 7) == Err(Authentication)
  {
    ops := Reactivate();
    LastRemovalRefused();
  }

  // ------------------------------------------------------------- a late identity

  const PROVIDER_TASK: Id := 500

  const STRAY := ObjectTarget(TASK, KeyOf(LOOK), 5)

  const STRAY_REQUEST :=
    Cleanup(ALICE, TASK, OrphanScope, None, None, Pending, None, None, None, 0, None, [STRAY], 40, 40)

  const WITH_STRAY := SENT.(cleanups := map[OrphanScope := STRAY_REQUEST])

  const REVOKED_TASK := SENT_TASK.(revokedAt := Some(50), cancelRequestedAt := Some(50), revision := 5, updatedAt := 50)

  function TaskRequest(targets: seq<Target>, at: Time): Cleanup {
    Cleanup(ALICE, TASK, TaskScope, None, None, Pending, Some(at), None, None, 0, None, targets, at, at)
  }

  const BLOCKED :=
    Rows(Some(REVOKED_TASK), NewHold(LOOK), None, map[OrphanScope := STRAY_REQUEST, TaskScope := TaskRequest([], 50)],
         [])

  lemma StrayIsRecorded()
    ensures OnTask(SENT, RecordUnpublished(LEASE, STRAY, 40), NO_LIMIT) == Ok(WITH_STRAY)
  {
    LookIsValid();
    assert Valid(SENT_TASK);
    assert NewOrphan(SENT_TASK, STRAY, 40) == Ok(STRAY_REQUEST);
    assert SENT.cleanups[OrphanScope := STRAY_REQUEST] == WITH_STRAY.cleanups;
  }

  lemma StrayIsRevoked()
    ensures EnsureCleanup(WITH_STRAY, TaskScope, None, None, 50) == Ok(BLOCKED)
  {
    LookIsValid();
    assert Valid(SENT_TASK) && Valid(REVOKED_TASK);
    assert Closing(SENT_TASK, 50) == Ok(REVOKED_TASK);
    assert NewCleanup(REVOKED_TASK, TaskScope, [], 50) == Ok(TaskRequest([], 50));
    assert WITH_STRAY.cleanups[TaskScope := TaskRequest([], 50)] == BLOCKED.cleanups;
  }

  lemma RevokedAlone(db: Db, r: Rows, b: Rows, at: Time)
    requires db.rows == map[TASK := r] && r.task.Some? && Valid(r.task.value) && r.task.value.facts == LOOK
    requires b.task.Some? && b.task.value.facts == LOOK && EnsureCleanup(r, TaskScope, None, None, at) == Ok(b)
    ensures RequestTaskCleanup(db, ALICE, TASK, at) == Ok(db.(rows := map[TASK := b]))
  {
    assert db.rows[TASK := b] == map[TASK := b];
    NoModels(map[TASK := b], r.task.value, at);
  }

  lemma NoModels(rows: map<Id, Rows>, t: Task, at: Time)
    requires forall u :: u in rows && rows[u].task.Some? ==> rows[u].task.value.facts.purpose.Image?
    ensures EnsureDependents(rows, t, at) == Ok(rows)
  {
    if t.result.Some? {
      assert ModelsOf(rows, t.facts.owner, t.result.value) == {};
      assert Ascending({}) == [];
    }
  }

  const STRAYED := ACCEPTED.(rows := map[TASK := WITH_STRAY])

  const BLOCKING := ACCEPTED.(rows := map[TASK := BLOCKED])

  lemma Stray() returns (ops: seq<Op>)
    ensures Run(EMPTY, ops, NO_LIMIT) == STRAYED
  {
    ops := Send();
    StrayIsRecorded();
    var sent := ACCEPTED.(rows := map[TASK := SENT]);
    OneWork(sent, TASK, RecordUnpublished(LEASE, STRAY, 40), WITH_STRAY, NO_LIMIT);
    assert sent.rows[TASK := WITH_STRAY] == STRAYED.rows;
    ops := AndStep(ops, sent, Work(TASK, RecordUnpublished(LEASE, STRAY, 40)), STRAYED, NO_LIMIT);
  }

  lemma RevokeStray() returns (ops: seq<Op>)
    ensures Run(EMPTY, ops, NO_LIMIT) == BLOCKING
  {
    ops := Stray();
    StrayIsRevoked();
    LookIsValid();
    RevokedAlone(STRAYED, WITH_STRAY, BLOCKED, 50);
    ops := AndThen(ops, STRAYED, RevokeTask(ALICE, TASK, 50), BLOCKING, NO_LIMIT);
  }

  /** A task is sent, a version it left behind is recorded for cleanup, and its owner
      revokes it before the provider identity arrives. The worker still holds its
      lease and presents an identity the task may take; recording it is refused. This
      is a run of the repository's interface: its own workers record such a version
      only for a task whose identity is known, as in the run below. */
  lemma LateIdentityIsReached() returns (ops: seq<Op>)
    ensures var db := Run(EMPTY, ops, NO_LIMIT);
            && TASK in db.rows && db.rows[TASK].task.Some?
            && WorkerProof(db.rows[TASK].task.value, LEASE, 60).Ok?
            && RecordExternal(db.rows[TASK].task.value, PROVIDER_TASK, 60).Ok?
            && WorkOn(db, TASK, Change(LEASE, RecordExternalID(PROVIDER_TASK), 60), NO_LIMIT).Err?
  {
    ops := RevokeStray();
    ReachedIsCore(ops, BLOCKING);
    BlockedRecords();
    LateIdentityBlockedIff(BLOCKING, TASK, LEASE, PROVIDER_TASK, NO_LIMIT, 60);
  }

  lemma BlockedRecords()
    ensures WorkerProof(REVOKED_TASK, LEASE, 60).Ok? && RecordExternal(REVOKED_TASK, PROVIDER_TASK, 60).Ok?
            && Blocked(BLOCKED)
  {
    LookIsValid();
    assert Valid(REVOKED_TASK);
  }

  lemma ReachedIsCore(ops: seq<Op>, db: Db)
    requires Run(EMPTY, ops, NO_LIMIT) == db
    ensures Core(db)
  {
    EmptyIsCore();
    RunKeepsCore(EMPTY, ops, NO_LIMIT);
  }

  // ---------------------------------------------------- a request left unlinked

  const KNOWN_TASK := SENT_TASK.(submission := Accepted, externalID := Some(PROVIDER_TASK), revision := 4,
                                 updatedAt := 40)

  const KNOWN := SENT.(task := Some(KNOWN_TASK))

  const PROVIDER := ProviderTarget(PROVIDER_TASK, Some(1))

  const ENDING_TASK := KNOWN_TASK.(revokedAt := Some(50), cancelRequestedAt := Some(50), revision := 6, updatedAt := 50)

  const ENDING := Rows(Some(ENDING_TASK), NewHold(LOOK), None, map[TaskScope := TaskRequest([PROVIDER], 50)], [])

  const FAREWELL: Id := 7

  const LINKED_REQUEST :=
    Cleanup(ALICE, TASK, AccountScope, None, Some(FAREWELL), Pending, Some(50), None, None, 0, None, [PROVIDER], 60, 60)

  const LINKED := ENDING.(cleanups := map[TaskScope := TaskRequest([PROVIDER], 50), AccountScope := LINKED_REQUEST])

  lemma KnownTasks()
    ensures Valid(SENT_TASK) && Valid(KNOWN_TASK) && Valid(ENDING_TASK)
  {
    LookIsValid();
  }

  lemma IdentityIsRecorded()
    ensures OnTask(SENT, Change(LEASE, RecordExternalID(PROVIDER_TASK), 40), NO_LIMIT) == Ok(KNOWN)
  {
    KnownTasks();
  }

  lemma KnownIsRevoked()
    ensures EnsureCleanup(KNOWN, TaskScope, None, None, 50) == Ok(ENDING)
  {
    KnownTasks();
    assert Closing(KNOWN_TASK, 50) == Ok(ENDING_TASK);
    assert KnownTargets(KNOWN, ENDING_TASK) == [PROVIDER];
    assert NewCleanup(ENDING_TASK, TaskScope, [PROVIDER], 50) == Ok(TaskRequest([PROVIDER], 50));
    assert KNOWN.cleanups[TaskScope := TaskRequest([PROVIDER], 50)] == ENDING.cleanups;
  }

  lemma AccountIsLinked()
    ensures EnsureCleanup(ENDING, AccountScope, None, Some(FAREWELL), 60) == Ok(LINKED)
  {
    KnownTasks();
    assert Closing(ENDING_TASK, 60) == Ok(ENDING_TASK);
    assert KnownTargets(ENDING, ENDING_TASK) == [PROVIDER];
    assert NewCleanup(ENDING_TASK, AccountScope, [PROVIDER], 60)
        == Ok(LINKED_REQUEST.(account := None));
    assert ENDING.cleanups[AccountScope := LINKED_REQUEST] == LINKED.cleanups;
  }

  const KNOWING := ACCEPTED.(rows := map[TASK := KNOWN])

  const REVOKING := ACCEPTED.(rows := map[TASK := ENDING])

  lemma Identify() returns (ops: seq<Op>)
    ensures Run(EMPTY, ops, NO_LIMIT) == KNOWING
  {
    ops := Send();
    IdentityIsRecorded();
    var sent := ACCEPTED.(rows := map[TASK := SENT]);
    OneWork(sent, TASK, Change(LEASE, RecordExternalID(PROVIDER_TASK), 40), KNOWN, NO_LIMIT);
    assert sent.rows[TASK := KNOWN] == KNOWING.rows;
    ops := AndStep(ops, sent, Work(TASK, Change(LEASE, RecordExternalID(PROVIDER_TASK), 40)), KNOWING, NO_LIMIT);
  }

  lemma RevokeKnown() returns (ops: seq<Op>)
    ensures Run(EMPTY, ops, NO_LIMIT) == REVOKING
  {
    ops := Identify();
    KnownIsRevoked();
    KnownTasks();
    RevokedAlone(KNOWING, KNOWN, ENDING, 50);
    ops := AndThen(ops, KNOWING, RevokeTask(ALICE, TASK, 50), REVOKING, NO_LIMIT);
  }

  // ------------------------------------------------ a known identity, once more

  const VALIDATING_TASK := KNOWN_TASK.(status := Validating, revision := 5, updatedAt := 45)

  const VALIDATING := KNOWN.(task := Some(VALIDATING_TASK))

  const LEFT_OVER := STRAY_REQUEST.(createdAt := 46, updatedAt := 46)

  const LEAVING_STRAY := VALIDATING.(cleanups := map[OrphanScope := LEFT_OVER])

  const STOPPED_TASK :=
    VALIDATING_TASK.(revokedAt := Some(50), cancelRequestedAt := Some(50), revision := 7, updatedAt := 50)

  const STOPPED := Rows(Some(STOPPED_TASK), NewHold(LOOK), None,
                        map[OrphanScope := LEFT_OVER, TaskScope := TaskRequest([PROVIDER], 50)], [])

  lemma StoppedTasks()
    ensures Valid(KNOWN_TASK) && Valid(VALIDATING_TASK) && Valid(STOPPED_TASK)
  {
    LookIsValid();
  }

  lemma StrayIsLeftOver()
    ensures OnTaskAll(KNOWN, [Change(LEASE, ApplyProviderState(PROVIDER_TASK, Validating, None), 45),
                              RecordUnpublished(LEASE, STRAY, 46)], NO_LIMIT) == Ok(LEAVING_STRAY)
  {
    StoppedTasks();
    var observe := Change(LEASE, ApplyProviderState(PROVIDER_TASK, Validating, None), 45);
    assert OnTask(KNOWN, observe, NO_LIMIT) == Ok(VALIDATING);
    assert NewOrphan(VALIDATING_TASK, STRAY, 46) == Ok(LEFT_OVER);
    assert VALIDATING.cleanups[OrphanScope := LEFT_OVER] == LEAVING_STRAY.cleanups;
    assert OnTask(VALIDATING, RecordUnpublished(LEASE, STRAY, 46), NO_LIMIT) == Ok(LEAVING_STRAY);
    TwoWorks(KNOWN, observe, VALIDATING, RecordUnpublished(LEASE, STRAY, 46), LEAVING_STRAY, NO_LIMIT);
  }

  lemma LeftOverIsRevoked()
    ensures EnsureCleanup(LEAVING_STRAY, TaskScope, None, None, 50) == Ok(STOPPED)
  {
    StoppedTasks();
    assert Closing(VALIDATING_TASK, 50) == Ok(STOPPED_TASK);
    assert KnownTargets(LEAVING_STRAY, STOPPED_TASK) == [PROVIDER];
    assert NewCleanup(STOPPED_TASK, TaskScope, [PROVIDER], 50) == Ok(TaskRequest([PROVIDER], 50));
    assert LEAVING_STRAY.cleanups[TaskScope := TaskRequest([PROVIDER], 50)] == STOPPED.cleanups;
  }

  const LITTERED := ACCEPTED.(rows := map[TASK := LEAVING_STRAY])

  const STOPPING := ACCEPTED.(rows := map[TASK := STOPPED])

  lemma Litter() returns (ops: seq<Op>)
    ensures Run(EMPTY, ops, NO_LIMIT) == LITTERED
  {
    ops := Identify();
    StrayIsLeftOver();
    ops := Worked(ops, KNOWING, TASK, [Change(LEASE, ApplyProviderState(PROVIDER_TASK, Validating, None), 45),
                                       RecordUnpublished(LEASE, STRAY, 46)], LEAVING_STRAY, NO_LIMIT);
    assert KNOWING.rows[TASK := LEAVING_STRAY] == LITTERED.rows;
  }

  lemma LitterIsRevoked()
    ensures RequestTaskCleanup(LITTERED, ALICE, TASK, 50) == Ok(STOPPING)
  {
    LeftOverIsRevoked();
    StoppedTasks();
    RevokedAlone(LITTERED, LEAVING_STRAY, STOPPED, 50);
  }

  lemma Stop() returns (ops: seq<Op>)
    ensures Run(EMPTY, ops, NO_LIMIT) == STOPPING
  {
    ops := Litter();
    LitterIsRevoked();
    Revokes(LITTERED, RevokeTask(ALICE, TASK, 50), ALICE, TASK, 50, STOPPING);
    ops := AndThen(ops, LITTERED, RevokeTask(ALICE, TASK, 50), STOPPING, NO_LIMIT);
  }

  /** The identity is on file and the task is being validated when a version it left
      behind is recorded, as the result worker does, and its owner revokes it. Presenting
      the same identity again, which changes nothing on any other task, is refused. */
  lemma KnownIdentityIsRefused() returns (ops: seq<Op>)
    ensures var db := Run(EMPTY, ops, NO_LIMIT);
            && TASK in db.rows && db.rows[TASK].task.Some? && db.rows[TASK].task.value.externalID == Some(PROVIDER_TASK)
            && WorkerProof(db.rows[TASK].task.value, LEASE, 60).Ok?
            && RecordExternal(db.rows[TASK].task.value, PROVIDER_TASK, 60) == Ok(db.rows[TASK].task.value)
            && WorkOn(db, TASK, Change(LEASE, RecordExternalID(PROVIDER_TASK), 60), NO_LIMIT).Err?
  {
    ops := Stop();
    ReachedIsCore(ops, STOPPING);
    StoppedRecords();
    LateIdentityBlockedIff(STOPPING, TASK, LEASE, PROVIDER_TASK, NO_LIMIT, 60);
  }

  lemma StoppedRecords()
    ensures WorkerProof(STOPPED_TASK, LEASE, 60).Ok? && Blocked(STOPPED)
    ensures RecordExternal(STOPPED_TASK, PROVIDER_TASK, 60) == Ok(STOPPED_TASK)
  {
    StoppedTasks();
  }

  // ------------------------------------ the account leaves: the task request stays unlinked

  function Dying(a: MediaAsset): MediaAsset { a.(status := Deleting, updatedAt := 60) }

  const REQUESTED := Deletion(ALICE, Some(FAREWELL), DeletionPending, 0, None)

  const BOTH_DYING := MediaDb(
    map[PHOTO := Dying(TWO_READY.media[PHOTO]), SHIRT := Dying(TWO_READY.media[SHIRT])],
    map[PHOTO := REQUESTED, SHIRT := REQUESTED], CONSENTS, TWO_READY.receipts)

  const LEAVING := Db(
    map[ALICE := ALICE_ROW.(status := Leaving, revision := 2)], map[],
      map[ALICE := AccountDeletion(FAREWELL, 60, None)],
    BOTH_DYING, map[TASK := LINKED], ACCEPTED.used + {FAREWELL})

  lemma BothRemaining()
    ensures Remaining(TWO_READY, ALICE) == {PHOTO, SHIRT} && Ascending({PHOTO, SHIRT}) == [PHOTO, SHIRT]
  {
    var q := Ascending({PHOTO, SHIRT});
    assert |q| == |{PHOTO, SHIRT}| == 2;
    assert q[0] in q && q[1] in q && q[0] < q[1];
    assert Remaining(TWO_READY, ALICE) == {PHOTO, SHIRT};
  }

  lemma BothClosed()
    ensures CloseMedia(TWO_READY, [PHOTO, SHIRT], FAREWELL, 60) == Ok(BOTH_DYING)
  {
    var one := CloseAsset(TWO_READY, PHOTO, FAREWELL, 60);
    var two := CloseAsset(one, SHIRT, FAREWELL, 60);
    assert two.media == BOTH_DYING.media && two.deletions == BOTH_DYING.deletions;
    assert [PHOTO, SHIRT][1..] == [SHIRT] && [SHIRT][1..] == [];
    assert CloseMedia(two, [], FAREWELL, 60) == Ok(two);
    assert CloseMedia(one, [SHIRT], FAREWELL, 60) == Ok(two);
  }

  lemma OneTaskOf(rows: map<Id, Rows>, r: Rows)
    requires rows == map[TASK := r] && r.task.Some? && r.task.value.facts.owner == ALICE
    ensures TasksOf(rows, ALICE) == {TASK} && Ascending({TASK}) == [TASK]
  {
    var q := Ascending({TASK});
    assert |q| == 1 && q[0] in q;
    assert TasksOf(rows, ALICE) == {TASK};
  }

  lemma TaskIsEnsured()
    ensures EnsureEach(REVOKING.rows, [TASK], AccountScope, Some(FAREWELL), 60) == Ok(LEAVING.rows)
  {
    AccountIsLinked();
    assert REVOKING.rows[TASK := LINKED] == LEAVING.rows && [TASK][1..] == [];
    assert EnsureEach(LEAVING.rows, [], AccountScope, Some(FAREWELL), 60) == Ok(LEAVING.rows);
  }

  lemma LeavingTables()
    ensures LEAVING == CloseUser(REVOKING, ALICE, FAREWELL, 60).(rows := LEAVING.rows, files := BOTH_DYING)
  {
    assert REVOKING.users[ALICE := LEAVING.users[ALICE]] == LEAVING.users;
    assert REVOKING.accounts[ALICE := LEAVING.accounts[ALICE]] == LEAVING.accounts;
    assert REVOKING.sessions - SessionsOf(REVOKING.sessions, ALICE) == LEAVING.sessions;
  }

  lemma LeavingGuards()
    ensures IsActive(REVOKING, ALICE) && ALICE !in REVOKING.accounts && FAREWELL !in REVOKING.used
    ensures Remaining(REVOKING.files, ALICE) != {} && [PHOTO, SHIRT] == Ascending(Remaining(REVOKING.files, ALICE))
    ensures [TASK] == Ascending(TasksOf(REVOKING.rows, ALICE))
    ensures REVOKING.files == TWO_READY && LEAVING.files == BOTH_DYING
  {
    BothRemaining();
    OneTaskOf(REVOKING.rows, ENDING);
  }

  lemma LeavingIsCommitted()
    ensures BeginAccountDeletion(REVOKING, ALICE, FAREWELL, 60) == Ok(LEAVING)
  {
    LeavingGuards();
    BothClosed();
    TaskIsEnsured();
    LeavingTables();
    Begun(REVOKING, ALICE, FAREWELL, 60, [TASK], [PHOTO, SHIRT], LEAVING);
  }

  /** Closing an account that has assets left, put together from its parts. */
  lemma Begun(db: Db, user: Id, request: Id, at: Time, tasks: seq<Id>, assets: seq<Id>, next: Db)
    requires IsActive(db, user) && user !in db.accounts && request !in db.used && Remaining(db.files, user) != {}
    requires tasks == Ascending(TasksOf(db.rows, user)) && assets == Ascending(Remaining(db.files, user))
    requires EnsureEach(db.rows, tasks, AccountScope, Some(request), at) == Ok(next.rows)
    requires CloseMedia(db.files, assets, request, at) == Ok(next.files)
    requires next == CloseUser(db, user, request, at).(rows := next.rows, files := next.files)
    ensures BeginAccountDeletion(db, user, request, at) == Ok(next)
  {
  }

  lemma LeaveRevoked() returns (ops: seq<Op>)
    ensures Run(EMPTY, ops, NO_LIMIT) == LEAVING
  {
    ops := RevokeKnown();
    LeavingIsCommitted();
    Leaves(REVOKING, LeaveAccount(ALICE, FAREWELL, 60), ALICE, FAREWELL, 60, LEAVING);
    ops := AndThen(ops, REVOKING, LeaveAccount(ALICE, FAREWELL, 60), LEAVING, NO_LIMIT);
  }

  // both images are removed; the linked request is what is left

  const ONE_GONE: MediaDb := FinishDeletion(BOTH_DYING, 81, PHOTO, 70).value

  const BOTH_GONE: MediaDb := FinishDeletion(ONE_GONE, 82, SHIRT, 71).value

  lemma StillLinked(rows: map<Id, Rows>)
    requires rows == map[TASK := LINKED]
    ensures RemainingCleanups(rows, FAREWELL) != {}
  {
    assert AccountScope in LINKED.cleanups && LinkedPending(LINKED, FAREWELL);
    assert TASK in RemainingCleanups(rows, FAREWELL);
  }

  lemma RemovedOne(db: Db, op: Op, files: MediaDb)
    requires op.FinishRemoval? && (op.event, MediaDelete) !in db.files.receipts
    requires FinishDeletion(db.files, op.event, op.media, op.at) == Ok(files) && files.media[op.media].owner == ALICE
    requires ALICE in db.accounts && db.accounts[ALICE].id == FAREWELL && RemainingCleanups(db.rows, FAREWELL) != {}
    ensures Apply(db, op, NO_LIMIT) == Ok(db.(files := files))
  {
    assert CompleteDeletion(db, op.event, op.media, op.at) == Ok(db.(files := files));
  }

  lemma RemoveBoth() returns (ops: seq<Op>)
    ensures Run(EMPTY, ops, NO_LIMIT) == LEAVING.(files := BOTH_GONE)
  {
    ops := LeaveRevoked();
    StillLinked(LEAVING.rows);
    var one := LEAVING.(files := ONE_GONE);
    RemovedOne(LEAVING, FinishRemoval(81, PHOTO, 70), ONE_GONE);
    ops := AndThen(ops, LEAVING, FinishRemoval(81, PHOTO, 70), one, NO_LIMIT);
    RemovedOne(one, FinishRemoval(82, SHIRT, 71), BOTH_GONE);
    ops := AndThen(ops, one, FinishRemoval(82, SHIRT, 71), one.(files := BOTH_GONE), NO_LIMIT);
  }

  // the linked request is claimed and finished, and the account is erased

  const CLAIMED_REQUEST := LINKED_REQUEST.(status := InProgress, attempts := 1, updatedAt := 80)

  const FINISHED_REQUEST := CLAIMED_REQUEST.(status := Complete, completedAt := Some(90), updatedAt := 90)

  const CLAIMED := LINKED.(cleanups := LINKED.cleanups[AccountScope := CLAIMED_REQUEST])

  const FINISHED := LINKED.(cleanups := LINKED.cleanups[AccountScope := FINISHED_REQUEST])

  lemma RequestsAreValid()
    ensures ValidCleanup(LINKED_REQUEST) && ValidCleanup(CLAIMED_REQUEST) && ValidCleanup(FINISHED_REQUEST)
    ensures ValidCleanup(TaskRequest([PROVIDER], 50))
  {
  }

  lemma RequestIsClaimed()
    ensures OnTask(LINKED, ClaimCleanup(AccountScope, 80, 1000), NO_LIMIT) == Ok(CLAIMED)
  {
    RequestsAreValid();
    assert IdentityMatches(LINKED, LINKED_REQUEST);
    assert ClaimRequest(LINKED, LINKED_REQUEST, 80) == Ok(CLAIMED_REQUEST);
  }

  lemma RequestIsFinished()
    ensures CompleteTaskCleanup(CLAIMED, CLAIMED_REQUEST, 90) == Ok(FINISHED)
  {
    RequestsAreValid();
    assert Finish(CLAIMED_REQUEST, 90) == Ok(FINISHED_REQUEST);
    assert CLAIMED.cleanups[AccountScope := FINISHED_REQUEST] == FINISHED.cleanups;
  }

  const CLAIMING := LEAVING.(files := BOTH_GONE, rows := map[TASK := CLAIMED])

  const FINISHING := LEAVING.(files := BOTH_GONE, rows := map[TASK := FINISHED])

  const ERASED: Db := Erase(FINISHING, ALICE, 90)

  lemma ClaimLinked() returns (ops: seq<Op>)
    ensures Run(EMPTY, ops, NO_LIMIT) == CLAIMING
  {
    ops := RemoveBoth();
    RequestIsClaimed();
    var removed := LEAVING.(files := BOTH_GONE);
    OneWork(removed, TASK, ClaimCleanup(AccountScope, 80, 1000), CLAIMED, NO_LIMIT);
    assert removed.rows[TASK := CLAIMED] == CLAIMING.rows;
    ops := AndStep(ops, removed, Work(TASK, ClaimCleanup(AccountScope, 80, 1000)), CLAIMING, NO_LIMIT);
  }

  lemma NothingLeft()
    ensures Remaining(BOTH_GONE, ALICE) == {} && RemainingCleanups(FINISHING.rows, FAREWELL) == {}
  {
    assert !LinkedPending(FINISHED, FAREWELL);
  }

  lemma LastFinisherErases()
    ensures CompleteCleanup(CLAIMING, CLAIMED_REQUEST, 90) == Ok(ERASED)
  {
    RequestIsFinished();
    NothingLeft();
    assert CLAIMING.rows[TASK := FINISHED] == FINISHING.rows;
    assert FinalizeIfReady(FINISHING, ALICE, 90) == Ok(ERASED);
  }

  lemma Finishes(db: Db, op: Op, claimed: Cleanup, at: Time, next: Db)
    requires op == FinishCleanup(claimed, at) && CompleteCleanup(db, claimed, at) == Ok(next)
    ensures Apply(db, op, NO_LIMIT) == Ok(next)
  {
  }

  lemma EraseLast() returns (ops: seq<Op>)
    ensures Run(EMPTY, ops, NO_LIMIT) == ERASED
  {
    ops := ClaimLinked();
    LastFinisherErases();
    Finishes(CLAIMING, FinishCleanup(CLAIMED_REQUEST, 90), CLAIMED_REQUEST, 90, ERASED);
    ops := AndThen(ops, CLAIMING, FinishCleanup(CLAIMED_REQUEST, 90), ERASED, NO_LIMIT);
  }

  const STRANDED := Rows(None, None, None, map[TaskScope := TaskRequest([PROVIDER], 50)], [])

  lemma WhatIsLeft()
    ensures EraseRows(FINISHED, ALICE, FAREWELL) == STRANDED
  {
    assert EraseRows(FINISHED, ALICE, FAREWELL).cleanups == STRANDED.cleanups;
  }

  lemma StrandedIsClaimed()
    ensures ClaimTaskCleanup(STRANDED, TaskScope, 100, 1000).Ok?
  {
    RequestsAreValid();
  }

  lemma WhatIsStranded()
    ensures ALICE !in ERASED.users && ALICE in ERASED.accounts && ERASED.accounts[ALICE].completedAt == Some(90)
    ensures TASK in ERASED.rows && ERASED.rows[TASK] == STRANDED
  {
    WhatIsLeft();
  }

  /** The owner of a task revokes it and then leaves. Both images are removed, the
      request linked to the account is finished, and the account is erased, while the
      owner's first request, which lists the provider task, was never linked and is
      still pending. The first claim of it takes it out of automatic retries. */
  lemma StrandedRequestIsReached() returns (ops: seq<Op>)
    ensures var db := Run(EMPTY, ops, NO_LIMIT);
            && ALICE !in db.users && ALICE in db.accounts && db.accounts[ALICE].completedAt.Some?
            && TASK in db.rows && db.rows[TASK].task.None? && TaskScope in db.rows[TASK].cleanups
            && PROVIDER in db.rows[TASK].cleanups[TaskScope].targets
            && ClaimTaskCleanup(db.rows[TASK], TaskScope, 100, 1000).Ok?
            && ClaimTaskCleanup(db.rows[TASK], TaskScope, 100, 1000).value.cleanups[TaskScope].fault
               == Some(IdentityMismatch)
  {
    ops := EraseLast();
    WhatIsStranded();
    StrandedIsClaimed();
    ReachedIsCore(ops, ERASED);
    StrandedAfterErasure(TASK, ERASED.rows[TASK], TaskScope, 100, 1000);
  }

  // ----------------------------------------------------------- a canceled wait

  const WAITING_TASK := KNOWN_TASK.(leaseOwner := None, leaseUntil := None, nextAttemptAt := Some(1050), revision := 5,
                                    updatedAt := 50)

  const WAITING := KNOWN.(task := Some(WAITING_TASK))

  lemma TaskWaits()
    ensures OnTask(KNOWN, Change(LEASE, ReleaseForRetry(1000), 50), NO_LIMIT) == Ok(WAITING) && Valid(WAITING_TASK)
  {
    KnownTasks();
  }

  lemma Wait() returns (ops: seq<Op>)
    ensures Run(EMPTY, ops, NO_LIMIT) == ACCEPTED.(rows := map[TASK := WAITING])
  {
    ops := Identify();
    TaskWaits();
    OneWork(KNOWING, TASK, Change(LEASE, ReleaseForRetry(1000), 50), WAITING, NO_LIMIT);
    assert KNOWING.rows[TASK := WAITING] == map[TASK := WAITING];
    ops := AndStep(ops, KNOWING, Work(TASK, Change(LEASE, ReleaseForRetry(1000), 50)),
                   ACCEPTED.(rows := map[TASK := WAITING]), NO_LIMIT);
  }

  lemma WaitIsCanceled()
    ensures RequestCancel(WAITING_TASK, 60).Ok? && RequestCancel(WAITING_TASK, 60).value.nextAttemptAt.None?
    ensures CancelTask(WAITING, ALICE, 60).Ok? && CancelTask(WAITING, ALICE, 60).value.task.Some?
    ensures CancelTask(WAITING, ALICE, 60).value.task.value.nextAttemptAt == Some(1050)
  {
    TaskWaits();
  }

  /** An accepted task waits for its next look at the provider when its owner cancels
      it. The domain rule lets it come forward; the stored row makes it wait on. */
  lemma CanceledWaitIsReached() returns (ops: seq<Op>)
    ensures var db := Run(EMPTY, ops, NO_LIMIT);
            && TASK in db.rows && db.rows[TASK].task.Some?
            && RequestCancel(db.rows[TASK].task.value, 60).Ok?
            && RequestCancel(db.rows[TASK].task.value, 60).value.nextAttemptAt.None?
            && CancelTask(db.rows[TASK], ALICE, 60).Ok? && CancelTask(db.rows[TASK], ALICE, 60).value.task.Some?
            && CancelTask(db.rows[TASK], ALICE, 60).value.task.value.nextAttemptAt == Some(1050)
  {
    ops := Wait();
    WaitIsCanceled();
  }

  // --------------------------------------------------------- a retry that is lost

  const CHECKED_TASK := KNOWN_TASK.(status := Validating, revision := 5, updatedAt := 50)

  const CHECKED := KNOWN.(task := Some(CHECKED_TASK))

  const RESULT: Id := 8

  const PICTURE :=
    Asset(RESULT, TASK, ALICE, 1, 1, Image, None, None, Jpeg, 10, 66, KeyOf(LOOK), 5, 60)

  const DONE_TASK := CHECKED_TASK.(status := Succeeded, result := Some(RESULT), leaseOwner := None, leaseUntil := None,
                                   revision := 6, updatedAt := 60)

  const CONSUMED := Reservation(TASK, ALICE, Image, LOOK.cost, Consumed, 2, 10, 60)

  const DONE := Rows(Some(DONE_TASK), Some(CONSUMED), Some(Output(PICTURE, None)), map[], [])

  lemma DoneTasks()
    ensures Valid(CHECKED_TASK) && Valid(DONE_TASK)
  {
    KnownTasks();
  }

  lemma ImageIsObserved()
    ensures OnTask(KNOWN, Change(LEASE, ApplyProviderState(PROVIDER_TASK, Validating, None), 50), NO_LIMIT)
            == Ok(CHECKED)
  {
    KnownTasks();
  }

  lemma ImageIsPublished()
    ensures PublishTask(CHECKED, LEASE, PICTURE, NO_LIMIT, 60) == Ok(DONE)
  {
    DoneTasks();
    assert ValidAsset(CHECKED_TASK, PICTURE);
    assert CloseHold(NewHold(LOOK), Consumed, 60) == Ok(Some(CONSUMED));
    assert PublishOutput(CHECKED_TASK, NewHold(LOOK), PICTURE, 60)
        == Ok(Settlement(DONE_TASK, Some(CONSUMED), Some(PICTURE), 1, false));
    assert ValidAsset(DONE_TASK, PICTURE);
  }

  const OBSERVED := ACCEPTED.(rows := map[TASK := CHECKED])

  const PUBLISHED := ACCEPTED.(rows := map[TASK := DONE], used := ACCEPTED.used + {RESULT})

  lemma SeeImage() returns (ops: seq<Op>)
    ensures Run(EMPTY, ops, NO_LIMIT) == OBSERVED
  {
    ops := Identify();
    ImageIsObserved();
    var op := Change(LEASE, ApplyProviderState(PROVIDER_TASK, Validating, None), 50);
    OneWork(KNOWING, TASK, op, CHECKED, NO_LIMIT);
    assert KNOWING.rows[TASK := CHECKED] == OBSERVED.rows;
    ops := AndStep(ops, KNOWING, Work(TASK, op), OBSERVED, NO_LIMIT);
  }

  lemma PublishImage() returns (ops: seq<Op>)
    ensures Run(EMPTY, ops, NO_LIMIT) == PUBLISHED
  {
    ops := SeeImage();
    ImageIsPublished();
    assert OBSERVED.rows[TASK := DONE] == PUBLISHED.rows;
    Publishes(OBSERVED, Publish(LEASE, PICTURE, 60), LEASE, PICTURE, 60, PUBLISHED);
    ops := AndThen(ops, OBSERVED, Publish(LEASE, PICTURE, 60), PUBLISHED, NO_LIMIT);
  }

  lemma Publishes(db: Db, op: Op, lease: Lease, asset: Asset, at: Time, next: Db)
    requires op == Publish(lease, asset, at) && PublishOn(db, lease, asset, NO_LIMIT, at) == Ok(next)
    ensures Apply(db, op, NO_LIMIT) == Ok(next)
  {
  }

  // the owner revokes the result and asks for the same look again

  const HIDDEN_TASK := DONE_TASK.(revokedAt := Some(70), revision := 7, updatedAt := 70)

  const REMAINS := [ObjectTarget(RESULT, KeyOf(LOOK), 5), PROVIDER]

  const HIDDEN := DONE.(task := Some(HIDDEN_TASK), cleanups := map[TaskScope := TaskRequest(REMAINS, 70)])

  lemma ResultIsRevoked()
    ensures EnsureCleanup(DONE, TaskScope, None, None, 70) == Ok(HIDDEN) && Valid(HIDDEN_TASK)
  {
    DoneTasks();
    assert Closing(DONE_TASK, 70) == Ok(HIDDEN_TASK);
    assert KnownTargets(DONE, HIDDEN_TASK) == REMAINS;
    assert NewCleanup(HIDDEN_TASK, TaskScope, REMAINS, 70) == Ok(TaskRequest(REMAINS, 70));
    assert DONE.cleanups[TaskScope := TaskRequest(REMAINS, 70)] == HIDDEN.cleanups;
  }

  const HIDING := PUBLISHED.(rows := map[TASK := HIDDEN])

  lemma Revokes(db: Db, op: Op, user: Id, task: Id, at: Time, next: Db)
    requires op == RevokeTask(user, task, at) && RequestTaskCleanup(db, user, task, at) == Ok(next)
    ensures Apply(db, op, NO_LIMIT) == Ok(next)
  {
  }

  lemma Hide() returns (ops: seq<Op>)
    ensures Run(EMPTY, ops, NO_LIMIT) == HIDING
  {
    ops := PublishImage();
    ResultIsRevoked();
    DoneTasks();
    RevokedAlone(PUBLISHED, DONE, HIDDEN, 70);
    Revokes(PUBLISHED, RevokeTask(ALICE, TASK, 70), ALICE, TASK, 70, HIDING);
    ops := AndThen(ops, PUBLISHED, RevokeTask(ALICE, TASK, 70), HIDING, NO_LIMIT);
  }

  const SECOND: Id := 9

  /** The same content under a new key, and the retry of that request. */
  const AGAIN := LOOK.(id := SECOND, idempotency := 101, createdAt := 80)

  const RETRY := AGAIN.(id := 10, createdAt := 100)

  const SECOND_ROWS := Rows(Some(NewTask(AGAIN)), NewHold(AGAIN), None, map[], [])

  const ASKED := HIDING.(rows := map[TASK := HIDDEN, SECOND := SECOND_ROWS], used := HIDING.used + {SECOND})

  lemma AgainIsValid()
    ensures ValidFacts(AGAIN) && ValidFacts(RETRY)
  {
    LookIsValid();
  }

  lemma OneRowUsage(rows: map<Id, Rows>)
    requires rows == map[TASK := HIDDEN]
    ensures UsageOf(rows, ALICE, Image) == Usage(0, 1, 0)
  {
    SingleSum(ActiveColumn(rows, ALICE, Image), 0);
    SingleSum(UnitsColumn(rows, ALICE, Image), 1);
    SingleSum(MinorUnitsColumn(rows, ALICE, Image), 0);
  }

  lemma SingleSum(m: map<Id, nat>, v: nat)
    requires m == map[TASK := v]
    ensures Sum(m) == v
  {
    SumInsert(map[], TASK, v);
    assert map[][TASK := v] == m;
  }

  lemma AgainIsFresh()
    ensures Classify(HIDING.rows, AGAIN, POLICY, 80) == Ok(Fresh)
  {
    assert Prior(HIDING.rows, AGAIN) == {TASK};
  }

  lemma AgainIsAccepted()
    ensures Accept(HIDING, AGAIN, POLICY) == Ok(ASKED)
  {
    AgainIsValid();
    AgainIsFresh();
    AgainIsAdmitted();
    AgainIsWritten();
    FreshAccepted(HIDING, AGAIN, POLICY, ASKED);
  }

  lemma AgainIsAdmitted()
    ensures IsActive(HIDING, ALICE) && Admit(POLICY, AGAIN.cost, UsageOf(HIDING.rows, ALICE, Image)).Ok?
    ensures InputsAvailable(HIDING, AGAIN, POLICY.retention, 80)
  {
    OneRowUsage(HIDING.rows);
    InputsAreReady(HIDING, AGAIN);
  }

  lemma AgainIsWritten()
    ensures SECOND !in HIDING.used
    ensures ASKED == HIDING.(rows := HIDING.rows[SECOND := SECOND_ROWS], used := HIDING.used + {SECOND})
  {
    assert HIDING.rows[SECOND := SECOND_ROWS] == ASKED.rows;
  }

  lemma FreshAccepted(db: Db, f: Facts, p: Policy, next: Db)
    requires IsActive(db, f.owner) && Classify(db.rows, f, p, f.createdAt) == Ok(Fresh) && ValidFacts(f)
    requires Admit(p, f.cost, UsageOf(db.rows, f.owner, f.purpose)).Ok?
             && InputsAvailable(db, f, p.retention, f.createdAt)
    requires f.id !in db.used
    requires next == db.(rows := db.rows[f.id := Rows(Some(NewTask(f)), NewHold(f), None, map[], [])],
                         used := db.used + {f.id})
    ensures Accept(db, f, p) == Ok(next)
  {
  }

  lemma AskAgain() returns (ops: seq<Op>)
    ensures Run(EMPTY, ops, NO_LIMIT) == ASKED
  {
    ops := Hide();
    AgainIsAccepted();
    Asks(HIDING, Request(AGAIN, POLICY), AGAIN, POLICY, ASKED);
    ops := AndThen(ops, HIDING, Request(AGAIN, POLICY), ASKED, NO_LIMIT);
  }

  lemma Asks(db: Db, op: Op, f: Facts, p: Policy, next: Db)
    requires op == Request(f, p) && Accept(db, f, p) == Ok(next)
    ensures Apply(db, op, NO_LIMIT) == Ok(next)
  {
  }

  // the revoked result is cleaned up, and with it goes its output row

  const CLEANING := TaskRequest(REMAINS, 70).(status := InProgress, attempts := 1, updatedAt := 90)

  const CLEANED := CLEANING.(status := Complete, completedAt := Some(95), updatedAt := 95)

  const IN_CLEANUP := HIDDEN.(cleanups := map[TaskScope := CLEANING])

  const EMPTIED := HIDDEN.(cleanups := map[TaskScope := CLEANED], output := None)

  lemma CleanupRequestsAreValid()
    ensures ValidCleanup(TaskRequest(REMAINS, 70)) && ValidCleanup(CLEANING) && ValidCleanup(CLEANED)
  {
  }

  lemma ResultIsClaimed()
    ensures OnTask(HIDDEN, ClaimCleanup(TaskScope, 90, 1000), NO_LIMIT) == Ok(IN_CLEANUP)
  {
    CleanupRequestsAreValid();
    assert IdentityMatches(HIDDEN, TaskRequest(REMAINS, 70));
    assert HIDDEN.cleanups[TaskScope := CLEANING] == IN_CLEANUP.cleanups;
  }

  lemma ResultIsCleaned()
    ensures CompleteTaskCleanup(IN_CLEANUP, CLEANING, 95) == Ok(EMPTIED)
  {
    CleanupRequestsAreValid();
    assert IN_CLEANUP.cleanups[TaskScope := CLEANED] == EMPTIED.cleanups;
  }

  const ASKED_CLEANING := ASKED.(rows := map[TASK := IN_CLEANUP, SECOND := SECOND_ROWS])

  const LOST := ASKED.(rows := map[TASK := EMPTIED, SECOND := SECOND_ROWS])

  lemma ClaimResult() returns (ops: seq<Op>)
    ensures Run(EMPTY, ops, NO_LIMIT) == ASKED_CLEANING
  {
    ops := AskAgain();
    ResultIsClaimed();
    OneWork(ASKED, TASK, ClaimCleanup(TaskScope, 90, 1000), IN_CLEANUP, NO_LIMIT);
    assert ASKED.rows[TASK := IN_CLEANUP] == ASKED_CLEANING.rows;
    ops := AndStep(ops, ASKED, Work(TASK, ClaimCleanup(TaskScope, 90, 1000)), ASKED_CLEANING, NO_LIMIT);
  }

  lemma ResultIsDone()
    ensures CompleteCleanup(ASKED_CLEANING, CLEANING, 95) == Ok(LOST)
  {
    ResultIsCleaned();
    assert ASKED_CLEANING.rows[TASK := EMPTIED] == LOST.rows;
  }

  lemma CleanResult() returns (ops: seq<Op>)
    ensures Run(EMPTY, ops, NO_LIMIT) == LOST
  {
    ops := ClaimResult();
    ResultIsDone();
    Finishes(ASKED_CLEANING, FinishCleanup(CLEANING, 95), CLEANING, 95, LOST);
    ops := AndThen(ops, ASKED_CLEANING, FinishCleanup(CLEANING, 95), LOST, NO_LIMIT);
  }

  lemma RetryIsAnswered()
    ensures Accept(ASKED, RETRY, POLICY) == Ok(ASKED)
  {
    AgainIsValid();
    assert Prior(ASKED.rows, RETRY) == {TASK, SECOND};
  }

  lemma RetryIsLost()
    ensures Accept(LOST, RETRY, POLICY) == Err(Unavailable)
  {
    assert TASK in Prior(LOST.rows, RETRY);
    assert NeedsOutput(LOST.rows[TASK], RETRY, POLICY) && LOST.rows[TASK].output.None?;
  }

  /** A result is published and revoked, and the same look is asked for under a new
      key: the new task is accepted, and a retry of its request is answered with it.
      Once the revoked result has been cleaned up, the same retry is refused. */
  lemma LostRetryIsReached() returns (before: seq<Op>, after: seq<Op>)
    ensures var db := Run(EMPTY, before, NO_LIMIT); SECOND in db.rows && Accept(db, RETRY, POLICY) == Ok(db)
    ensures var db := Run(EMPTY, after, NO_LIMIT);
            && SECOND in db.rows && db.rows[SECOND].task == Some(NewTask(AGAIN))
            && Accept(db, RETRY, POLICY) == Err(Unavailable)
  {
    before := AskAgain();
    after := CleanResult();
    RetryIsAnswered();
    RetryIsLost();
  }
}
