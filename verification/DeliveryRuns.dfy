/** Deliveries among all the transactions the store has: each of them keeps the law
    that exactly-once delivery relies on. */
module DeliveryRuns {
  import opened Base
  import opened GenerationStore
  import opened GenerationStoreInvariant
  import opened GenerationStoreProofs
  import opened GenerationStoreSteps
  import opened GenerationRuns
  import opened GenerationAssets
  import opened Delivery

  /** A transaction of the store; an account that is erased takes its notifications
      along. */
  function Operation(op: Op, timeout: Time): Transaction { (db: Inbox) => Operated(db, op, timeout) }

  function Operated(db: Inbox, op: Op, timeout: Time): Result<Inbox, Error> {
    var store :- Apply(db.store, op, timeout);
    Ok(Saved(db, store))
  }

  /** A new notification for a user. */
  function Notice(id: Id, event: Id, recipient: Id): Transaction { (db: Inbox) => Noticed(db, id, event, recipient) }

  function Noticed(db: Inbox, id: Id, event: Id, recipient: Id): Result<Inbox, Error> {
    if recipient !in db.store.users || id in db.store.used then Err(Unavailable)
    else Ok(db.(notifications := db.notifications[id := Notification(event, recipient, None)],
                store := db.store.(used := db.store.used + {id})))
  }

  lemma OperatedFollows(db: Inbox, op: Op, timeout: Time)
    requires InboxOk(db) && Apply(db.store, op, timeout).Ok?
    ensures var b := Saved(db, Apply(db.store, op, timeout).value); SetOnce(db, b) && InboxOk(b)
  {
    ApplyKeepsCore(db.store, op, timeout, Apply(db.store, op, timeout).value);
    ApplyLater(db.store, op, timeout, Apply(db.store, op, timeout).value);
    ApplyFollows(db.store, op, timeout, Apply(db.store, op, timeout).value);
    SavedFollows(db, Apply(db.store, op, timeout).value);
  }

  /** Every transaction of the store keeps the law: account closing, the erasure that
      ends it, uploads, checks, deletions, tasks and cleanups. */
  lemma OperationIsLawful(op: Op, timeout: Time)
    ensures Lawful(Operation(op, timeout))
  {
    forall db: Inbox | InboxOk(db) && Operation(op, timeout)(db).Ok?
      ensures SetOnce(db, Operation(op, timeout)(db).value) && InboxOk(Operation(op, timeout)(db).value)
    {
      OperatedFollows(db, op, timeout);
    }
  }

  lemma NoticedStore(db: Db, id: Id)
    requires Core(db) && AssetIdsOk(db)
    ensures var b := db.(used := db.used + {id}); Core(b) && AssetIdsOk(b) && AssetsFollow(db, b)
  {
    var b := db.(used := db.used + {id});
    PeopleKeepCore(db, b);
    SameAssetsFollow(db, b);
  }

  lemma NoticedFollows(db: Inbox, id: Id, event: Id, recipient: Id)
    requires InboxOk(db) && Noticed(db, id, event, recipient).Ok?
    ensures var b := Noticed(db, id, event, recipient).value; SetOnce(db, b) && InboxOk(b)
  {
    NoticedStore(db.store, id);
  }

  lemma NoticeIsLawful(id: Id, event: Id, recipient: Id)
    ensures Lawful(Notice(id, event, recipient))
  {
    forall db: Inbox | InboxOk(db) && Notice(id, event, recipient)(db).Ok?
      ensures SetOnce(db, Notice(id, event, recipient)(db).value) && InboxOk(Notice(id, event, recipient)(db).value)
    {
      NoticedFollows(db, id, event, recipient);
    }
  }

  // --------------------------------------------------------------- the whole system

  datatype Occurrence =
    | Delivered(message: Message, at: Time)
    | Committed(op: Op, timeout: Time)
    | Notified(id: Id, event: Id, recipient: Id)

  function EventOf(o: Occurrence): Event {
    match o
    case Delivered(m, at) => Deliver(m, at)
    case Committed(op, timeout) => Touch(Operation(op, timeout))
    case Notified(id, event, recipient) => Touch(Notice(id, event, recipient))
  }

  function EventsOf(os: seq<Occurrence>): seq<Event> { seq(|os|, i requires 0 <= i < |os| => EventOf(os[i])) }

  lemma OccurrenceIsLawful(o: Occurrence)
    ensures LawfulEvent(EventOf(o))
  {
    match o
    case Delivered(_, _) =>
    case Committed(op, timeout) => OperationIsLawful(op, timeout);
    case Notified(id, event, recipient) => NoticeIsLawful(id, event, recipient);
  }

  lemma OccurrencesAreLawful(os: seq<Occurrence>)
    ensures LawfulAll(EventsOf(os))
  {
    forall e | e in EventsOf(os) ensures LawfulEvent(e) {
      var i :| 0 <= i < |os| && e == EventOf(os[i]);
      OccurrenceIsLawful(os[i]);
    }
  }

  /** Over any sequence of deliveries, transactions of the store and new notifications,
      from the empty tables: the tables are those of the first successful delivery of
      each event, and everything in them was set once. */
  lemma SystemIsExact(os: seq<Occurrence>)
    ensures var es := EventsOf(os);
            var db := RunEvents(START, es);
            && RunEvents(START, Effective(START, es)) == db && NoClashes(Effective(START, es))
            && SetOnce(START, db) && InboxOk(db)
            && forall m :: m in db.store.files.media ==> |db.store.files.media[m].derivations| <= 1
  {
    OccurrencesAreLawful(os);
    ReachedIsOk([]);
    EffectsHappenOnce(START, EventsOf(os));
    ResultsAreSetOnce(START, EventsOf(os));
  }

  /** Runs of the store are such sequences. */
  function Operations(ops: seq<Op>, timeout: Time): (es: seq<Event>)
    ensures |es| == |ops| && forall i :: 0 <= i < |ops| ==> es[i] == Touch(Operation(ops[i], timeout))
  {
    seq(|ops|, i requires 0 <= i < |ops| => Touch(Operation(ops[i], timeout)))
  }

  lemma OperatedStore(store: Db, op: Op, timeout: Time)
    ensures Next(Inbox(store, map[], {}), Touch(Operation(op, timeout))) == Inbox(Step(store, op, timeout), map[], {})
  {
    var db := Inbox(store, map[], {});
    assert forall b: Db :: Saved(db, b).notifications == map[];
  }

  lemma {:induction false} StoreRuns(store: Db, ops: seq<Op>, timeout: Time)
    ensures RunEvents(Inbox(store, map[], {}), Operations(ops, timeout))
            == Inbox(GenerationStore.Run(store, ops, timeout), map[], {})
    ensures LawfulAll(Operations(ops, timeout))
    decreases |ops|
  {
    var es := Operations(ops, timeout);
    forall e | e in es ensures LawfulEvent(e) {
      var i :| 0 <= i < |es| && e == es[i];
      OperationIsLawful(ops[i], timeout);
    }
    if ops != [] {
      OperatedStore(store, ops[0], timeout);
      assert es[1..] == Operations(ops[1..], timeout);
      StoreRuns(Step(store, ops[0], timeout), ops[1..], timeout);
    }
  }
}
