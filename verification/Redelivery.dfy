/** A run from the empty tables after which a record is delivered again, refused, and
    never passed: the account was erased by the very transaction that handled it. */
module Redelivery {
  import opened Base
  import opened Media
  import opened GenerationStore
  import opened GenerationAssets
  import opened Delivery
  import opened HandlerCalls
  import opened DeliveryRuns
  import opened ExampleRuns
  import opened Counterexamples

  /** The record that asks for the deletion of the image. */
  const REMOVAL := Record(100, true, 81, 1, IMAGE, IMAGE)

  /** The record that asks for its check, not handled before the account is closed. */
  const UPLOADED := Record(100, true, 80, 2, IMAGE, IMAGE)

  const CALM := Attempt(false, [], [], Finding(None, true, 0), 7, false, false)

  /** The handler runs out of time after its last transaction was committed. */
  const LATE := CALM.(late := true)

  const CLOSED := Inbox(CLOSING, map[], {})

  const BEGUN := CLOSING.(files := CLOSING.files.(
    deletions := map[IMAGE := Deletion(ALICE, Some(GOODBYE), DeletionRunning, 1, None)]))

  lemma DeletionIsBegun()
    ensures Outcome(CLOSED, FirstEvent(Erasures, REMOVAL, 7).value) == Ok(Inbox(BEGUN, map[], {}))
    ensures ToProcess(Inbox(BEGUN, map[], {}), Erasures, IMAGE)
  {
    var begun := OnMedia(CLOSING.files, MediaOp.BeginDeletion(IMAGE, 7)).value;
    assert begun.deletions == BEGUN.files.deletions;
    assert Saved(CLOSED, BEGUN).notifications == map[];
  }

  /** The deletion of the last image erases the account in the same transaction. */
  lemma LastIsErased()
    ensures CompleteDeletion(BEGUN, 81, IMAGE, 7).Ok?
    ensures var b := CompleteDeletion(BEGUN, 81, IMAGE, 7).value;
            ALICE !in b.users && RowErased(b, IMAGE) && (81, MediaDelete) in b.files.receipts
  {
    var files := FinishDeletion(BEGUN.files, 81, IMAGE, 7).value;
    var saved := BEGUN.(files := files);
    assert Remaining(saved.files, ALICE) == {} && RemainingCleanups(saved.rows, GOODBYE) == {};
    assert FinalizeIfReady(saved, ALICE, 7) == Ok(Erase(saved, ALICE, 7));
  }

  lemma LateCall()
    ensures var (b, ok) := Called(CLOSED, Erasures, REMOVAL, LATE);
            && !ok && Receipt(b, Erasures, 81) && RowErased(b.store, IMAGE) && ALICE !in b.store.users
  {
    DeletionIsBegun();
    LastIsErased();
    var begun := Inbox(BEGUN, map[], {});
    assert RunEvents(CLOSED, []) == CLOSED && RunEvents(begun, []) == begun;
    assert Called(CLOSED, Erasures, REMOVAL, LATE) == SecondPart(begun, Erasures, REMOVAL, LATE);
  }

  lemma ClosedIsAnnounced()
    ensures Announced(CLOSED.store, Erasures, IMAGE) && !RowErased(CLOSED.store, IMAGE)
    ensures Announced(ONE_IMAGE, Checks, IMAGE)
  {
  }

  /** A user uploads an image and leaves before it is checked. The handler deletes the
      image, erases the account and leaves its receipt, but runs out of time. From then
      on the record is refused, on these and on any later attempts; and so is the
      record that announced the upload. */
  lemma RefusedRedeliveryIsReached() returns (ops: seq<Op>)
    ensures RunEvents(START, Operations(ops, NO_LIMIT)) == CLOSED && InboxOk(CLOSED)
    ensures Announced(CLOSED.store, Erasures, IMAGE) && !RowErased(CLOSED.store, IMAGE)
    ensures var (b, ok) := CalledUntil(CLOSED, Erasures, REMOVAL, [LATE, CALM, CALM]);
            && !ok && Receipt(b, Erasures, 81) && RowErased(b.store, IMAGE)
            && forall later: seq<Attempt> :: (forall a :: a in later ==> LawfulAttempt(a)) ==>
                 && !CalledUntil(b, Erasures, REMOVAL, later).1 && !CalledUntil(b, Checks, UPLOADED, later).1
  {
    ops := Leave();
    StoreRuns(EMPTY, ops, NO_LIMIT);
    ReachedIsOk(Operations(ops, NO_LIMIT));
    ClosedIsAnnounced();
    LateCall();
    ThenRefused(CLOSED);
  }

  lemma ThenRefused(db: Inbox)
    requires InboxOk(db)
    requires var (b, ok) := Called(db, Erasures, REMOVAL, LATE);
             !ok && Receipt(b, Erasures, 81) && RowErased(b.store, IMAGE)
    ensures var (b, ok) := CalledUntil(db, Erasures, REMOVAL, [LATE, CALM, CALM]);
            && !ok && Receipt(b, Erasures, 81) && RowErased(b.store, IMAGE)
            && forall later: seq<Attempt> :: (forall a :: a in later ==> LawfulAttempt(a)) ==>
                 && !CalledUntil(b, Erasures, REMOVAL, later).1 && !CalledUntil(b, Checks, UPLOADED, later).1
  {
    var b := Called(db, Erasures, REMOVAL, LATE).0;
    CalledFollows(db, Erasures, REMOVAL, LATE);
    assert [LATE, CALM, CALM][1..] == [CALM, CALM];
    StillRefused(b, [CALM, CALM]);
  }

  lemma StillRefused(db: Inbox, attempts: seq<Attempt>)
    requires InboxOk(db) && Receipt(db, Erasures, 81) && RowErased(db.store, IMAGE)
    requires forall a :: a in attempts ==> LawfulAttempt(a)
    ensures var (b, ok) := CalledUntil(db, Erasures, REMOVAL, attempts);
            && !ok && Receipt(b, Erasures, 81) && RowErased(b.store, IMAGE)
            && forall later: seq<Attempt> :: (forall a :: a in later ==> LawfulAttempt(a)) ==>
                 && !CalledUntil(b, Erasures, REMOVAL, later).1 && !CalledUntil(b, Checks, UPLOADED, later).1
  {
    ErasedIsRefused(db, Erasures, REMOVAL, attempts);
    var last := CalledUntil(db, Erasures, REMOVAL, attempts).0;
    forall later: seq<Attempt> | forall a :: a in later ==> LawfulAttempt(a)
      ensures !CalledUntil(last, Erasures, REMOVAL, later).1 && !CalledUntil(last, Checks, UPLOADED, later).1
    {
      ErasedIsRefused(last, Erasures, REMOVAL, later);
      ErasedIsRefused(last, Checks, UPLOADED, later);
    }
  }
}
