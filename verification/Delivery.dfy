/** At-least-once delivery made exactly-once: handlers that leave a receipt with
    their effect, on the same tables as every other transaction of the store. */
module Delivery {
  import opened Base
  import opened Media
  import opened GenerationStore
  import opened GenerationStoreInvariant
  import opened GenerationStoreProofs
  import opened GenerationStoreAccounts
  import opened GenerationRuns
  import opened GenerationAssets
  import GenerationGuarantees

  // ------------------------------------------------------------------- handlers

  datatype Notification = Notification(event: Id, recipient: Id, availableAt: Option<Time>)

  /** `delivered` are the receipts of the notification handler, by event. */
  datatype Inbox = Inbox(store: Db, notifications: map<Id, Notification>, delivered: set<Id>)

  const START := Inbox(EMPTY, map[], {})

  /** The three topics whose handlers leave a receipt. */
  datatype Topic = Notifications | Checks | Erasures

  datatype Message =
    | Notify(event: Id, notification: Id)
    | FinishCheck(event: Id, media: Id, derivation: Option<Derivation>, ready: bool, reason: Id)
    | FinishErasure(event: Id, media: Id)

  function TopicOf(m: Message): Topic {
    match m
    case Notify(_, _) => Notifications
    case FinishCheck(_, _, _, _, _) => Checks
    case FinishErasure(_, _) => Erasures
  }

  /** The user row goes away between these two states. */
  predicate Removed(a: Db, b: Db, user: Id) { user in a.users && user !in b.users }

  /** The tables after a transaction of the store; notifications go with their
      recipient. */
  function Saved(db: Inbox, store: Db): Inbox {
    Inbox(store,
          db.notifications
          - (set n | n in db.notifications && Removed(db.store, store, db.notifications[n].recipient)),
          db.delivered)
  }

  function DeliverNotification(db: Inbox, event: Id, id: Id, at: Time): Result<Inbox, Error> {
    if event in db.delivered then Ok(db)
    else if id !in db.notifications || db.notifications[id].event != event then
      Ok(db.(delivered := db.delivered + {event}))
    else
      var n := db.notifications[id];
      var shown := if n.availableAt.None? then n.(availableAt := Some(at)) else n;
      Ok(db.(notifications := db.notifications[id := shown], delivered := db.delivered + {event}))
  }

  /** The transaction that leaves the receipt. The one of a deletion ends with the
      finalization of its owner's account deletion, if there is one. */
  function Handle(db: Inbox, m: Message, at: Time): Result<Inbox, Error> {
    match m
    case Notify(event, notification) => DeliverNotification(db, event, notification, at)
    case FinishCheck(event, media, derivation, ready, reason) =>
      var files :- CompleteMediaCheck(db.store.files, event, media, derivation, ready, reason, at);
      Ok(Saved(db, db.store.(files := files)))
    case FinishErasure(event, media) =>
      var store :- CompleteDeletion(db.store, event, media, at);
      Ok(Saved(db, store))
  }

  /** Whether the topic's handler has left its receipt for this event. */
  predicate Receipt(db: Inbox, topic: Topic, event: Id) {
    match topic
    case Notifications => event in db.delivered
    case Checks => (event, MediaCheck) in db.store.files.receipts
    case Erasures => (event, MediaDelete) in db.store.files.receipts
  }

  predicate Received(db: Inbox, m: Message) { Receipt(db, TopicOf(m), m.event) }

  predicate SameReceipt(a: Message, b: Message) { a.event == b.event && TopicOf(a) == TopicOf(b) }

  /** A transaction of anybody else leads from the committed tables to the next ones,
      or fails. What it may be is a law below. */
  type Transaction = Inbox -> Result<Inbox, Error>

  datatype Event = Deliver(message: Message, at: Time) | Touch(transaction: Transaction)

  function Outcome(db: Inbox, e: Event): Result<Inbox, Error> {
    match e
    case Deliver(m, at) => Handle(db, m, at)
    case Touch(t) => t(db)
  }

  predicate Commits(db: Inbox, e: Event) { Outcome(db, e).Ok? }

  function Next(db: Inbox, e: Event): Inbox { if Commits(db, e) then Outcome(db, e).value else db }

  /** Any sequence of transactions, some of them refused. */
  function RunEvents(db: Inbox, es: seq<Event>): Inbox
    decreases |es|
  {
    if es == [] then db else RunEvents(Next(db, es[0]), es[1..])
  }

  // ----------------------------------------------------------- what is set only once

  /** What was stored before is still there unless its owner was erased; what has
      come is new. */
  ghost predicate NoticesFollow(a: Inbox, b: Inbox) {
    && a.delivered <= b.delivered
    && (forall n :: n in b.notifications && n !in a.notifications ==> n !in a.store.used)
    && (forall n :: n in a.notifications ==>
          if n in b.notifications then ShownOnce(a.notifications[n], b.notifications[n])
          else a.notifications[n].recipient !in b.store.users)
  }

  predicate ShownOnce(a: Notification, b: Notification) {
    b.event == a.event && b.recipient == a.recipient && (a.availableAt.Some? ==> b.availableAt == a.availableAt)
  }

  /** Every result that is still stored is the one that was set first, a row goes
      only with its owner, and nothing erased comes back. */
  ghost predicate SetOnce(a: Inbox, b: Inbox) {
    && a.store.used <= b.store.used && NoneReturn(a.store, b.store)
    && AssetsFollow(a.store, b.store) && NoticesFollow(a, b)
  }

  ghost predicate InboxOk(db: Inbox) {
    && Core(db.store) && AssetIdsOk(db.store) && db.notifications.Keys <= db.store.used
    && forall n :: n in db.notifications ==> db.notifications[n].recipient in db.store.users
  }

  /** The law of all other transactions: they keep the tables well formed, take rows
      away only with their owner, and set nothing twice. */
  ghost predicate Lawful(t: Transaction) {
    forall db: Inbox :: InboxOk(db) && t(db).Ok? ==> SetOnce(db, t(db).value) && InboxOk(t(db).value)
  }

  ghost predicate LawfulEvent(e: Event) { e.Touch? ==> Lawful(e.transaction) }

  ghost predicate LawfulAll(es: seq<Event>) { forall e :: e in es ==> LawfulEvent(e) }

  lemma LawfulFirst(es: seq<Event>)
    requires LawfulAll(es) && es != []
    ensures LawfulEvent(es[0]) && LawfulAll(es[1..])
  {
    assert es[0] in es;
  }

  lemma SavedFollows(db: Inbox, store: Db)
    requires InboxOk(db) && Core(store) && AssetIdsOk(store)
    requires db.store.used <= store.used && NoneReturn(db.store, store) && AssetsFollow(db.store, store)
    ensures SetOnce(db, Saved(db, store)) && InboxOk(Saved(db, store))
  {
    NoticesSaved(db, store);
  }

  lemma NoticesSaved(db: Inbox, store: Db)
    requires db.notifications.Keys <= db.store.used && db.store.used <= store.used
    requires forall n :: n in db.notifications ==> db.notifications[n].recipient in db.store.users
    ensures var b := Saved(db, store);
            && NoticesFollow(db, b) && b.notifications.Keys <= store.used
            && forall n :: n in b.notifications ==> b.notifications[n].recipient in store.users
  {
  }

  lemma NotifyNotices(db: Inbox, event: Id, id: Id, at: Time)
    requires DeliverNotification(db, event, id, at).Ok?
    ensures var b := DeliverNotification(db, event, id, at).value;
            && b.store == db.store && NoticesFollow(db, b) && b.notifications.Keys == db.notifications.Keys
            && forall n :: n in db.notifications ==> b.notifications[n].recipient == db.notifications[n].recipient
  {
  }

  lemma NotifyFollows(db: Inbox, b: Inbox)
    requires InboxOk(db) && b.store == db.store && NoticesFollow(db, b) && b.notifications.Keys == db.notifications.Keys
    requires forall n :: n in db.notifications ==> b.notifications[n].recipient == db.notifications[n].recipient
    ensures SetOnce(db, b) && InboxOk(b)
  {
    SameAssetsFollow(db.store, b.store);
  }

  lemma WorkFollows(db: Inbox, op: MediaOp)
    requires InboxOk(db) && OnMedia(db.store.files, op).Ok?
    ensures var b := Saved(db, db.store.(files := OnMedia(db.store.files, op).value)); SetOnce(db, b) && InboxOk(b)
  {
    MediaOpKeepsCore(db.store, op);
    MediaOpFollows(db.store, op);
    SavedFollows(db, db.store.(files := OnMedia(db.store.files, op).value));
  }

  lemma ErasureFollows(db: Inbox, event: Id, media: Id, at: Time)
    requires InboxOk(db) && CompleteDeletion(db.store, event, media, at).Ok?
    ensures var b := Saved(db, CompleteDeletion(db.store, event, media, at).value); SetOnce(db, b) && InboxOk(b)
  {
    CompleteDeletionKeeps(db.store, event, media, at);
    CompleteDeletionLater(db.store, event, media, at);
    RemovalFollows(db.store, event, media, at);
    SavedFollows(db, CompleteDeletion(db.store, event, media, at).value);
  }

  lemma SetOnceReflexive(db: Inbox)
    ensures SetOnce(db, db)
  {
    SameAssetsFollow(db.store, db.store);
  }

  /** A transaction on the assets alone. */
  function MediaWork(op: MediaOp): Transaction { (db: Inbox) => Worked(db, op) }

  function Worked(db: Inbox, op: MediaOp): Result<Inbox, Error> {
    var files :- OnMedia(db.store.files, op);
    Ok(Saved(db, db.store.(files := files)))
  }

  lemma MediaWorkIsLawful(op: MediaOp)
    ensures Lawful(MediaWork(op))
  {
    forall db: Inbox | InboxOk(db) && MediaWork(op)(db).Ok?
      ensures SetOnce(db, MediaWork(op)(db).value) && InboxOk(MediaWork(op)(db).value)
    {
      WorkFollows(db, op);
    }
  }

  /** The handlers keep the law. */
  lemma HandledFollows(db: Inbox, m: Message, at: Time)
    requires InboxOk(db) && Handle(db, m, at).Ok?
    ensures var b := Handle(db, m, at).value; SetOnce(db, b) && InboxOk(b)
  {
    match m
    case Notify(event, notification) =>
      NotifyNotices(db, event, notification, at);
      NotifyFollows(db, Handle(db, m, at).value);
    case FinishCheck(event, media, derivation, ready, reason) =>
      WorkFollows(db, CompleteCheck(event, media, derivation, ready, reason, at));
    case FinishErasure(event, media) => ErasureFollows(db, event, media, at);
  }

  lemma NextFollows(db: Inbox, e: Event)
    requires InboxOk(db) && LawfulEvent(e)
    ensures SetOnce(db, Next(db, e)) && InboxOk(Next(db, e))
  {
    SetOnceReflexive(db);
    if e.Deliver? && Commits(db, e) { HandledFollows(db, e.message, e.at); }
  }

  lemma NoticesTransitive(a: Inbox, b: Inbox, c: Inbox)
    requires a.notifications.Keys <= a.store.used
    requires forall n :: n in a.notifications ==> a.notifications[n].recipient in a.store.used
    requires a.store.used <= b.store.used && NoneReturn(b.store, c.store) && NoticesFollow(a, b) && NoticesFollow(b, c)
    ensures NoticesFollow(a, c)
  {
    forall n | n in a.notifications
      ensures if n in c.notifications then ShownOnce(a.notifications[n], c.notifications[n])
              else a.notifications[n].recipient !in c.store.users
    {
      if n !in b.notifications { assert n in b.store.used; }
    }
  }

  lemma SetOnceTransitive(a: Inbox, b: Inbox, c: Inbox)
    requires InboxOk(a) && SetOnce(a, b) && SetOnce(b, c)
    ensures SetOnce(a, c)
  {
    NoticesTransitive(a, b, c);
    AssetsTransitive(a.store, b.store, c.store);
  }

  /** A notification becomes available at most once and keeps that instant; an asset
      gets at most one check result and at most one derivation from it, and keeps
      both until it is deleted; a row disappears only with its owner and never comes
      back -- over every mixture of deliveries and all other transactions. */
  lemma {:induction false} ResultsAreSetOnce(db: Inbox, es: seq<Event>)
    requires InboxOk(db) && LawfulAll(es)
    ensures SetOnce(db, RunEvents(db, es)) && InboxOk(RunEvents(db, es))
    ensures forall m :: m in RunEvents(db, es).store.files.media ==>
              |RunEvents(db, es).store.files.media[m].derivations| <= 1
    decreases |es|
  {
    if es == [] {
      SetOnceReflexive(db);
      forall m | m in db.store.files.media ensures |db.store.files.media[m].derivations| <= 1 {
        assert AssetOk(db.store.files, m);
      }
    } else {
      LawfulFirst(es);
      NextFollows(db, es[0]);
      ResultsAreSetOnce(Next(db, es[0]), es[1..]);
      SetOnceTransitive(db, Next(db, es[0]), RunEvents(db, es));
    }
  }

  // ---------------------------------------------------------------- exactly once

  /** A delivery that succeeds, and is the first one of its event to do so. */
  predicate Takes(db: Inbox, e: Event) { e.Deliver? && !Received(db, e.message) && Handle(db, e.message, e.at).Ok? }

  /** The run without the deliveries that are not such a first success. */
  function Effective(db: Inbox, es: seq<Event>): seq<Event>
    decreases |es|
  {
    if es == [] then []
    else
      var rest := Effective(Next(db, es[0]), es[1..]);
      if es[0].Deliver? && !Takes(db, es[0]) then rest else [es[0]] + rest
  }

  predicate Clashes(a: Event, b: Event) { a.Deliver? && b.Deliver? && SameReceipt(a.message, b.message) }

  lemma SavedSame(db: Inbox)
    ensures Saved(db, db.store) == db
  {
    assert Saved(db, db.store).notifications == db.notifications;
  }

  /** A handler that succeeds leaves its receipt, even when it erases the account in
      the same transaction; with a receipt it changes nothing. */
  lemma HandledIsReceived(db: Inbox, m: Message, at: Time)
    requires Handle(db, m, at).Ok?
    ensures Received(Handle(db, m, at).value, m)
    ensures Received(db, m) ==> Handle(db, m, at).value == db
  {
    SavedSame(db);
    if m.FinishErasure? && !Received(db, m) { FinishedIsReceived(db.store, m.event, m.media, at); }
  }

  lemma FinishedIsReceived(db: Db, event: Id, media: Id, at: Time)
    requires CompleteDeletion(db, event, media, at).Ok? && (event, MediaDelete) !in db.files.receipts
    ensures (event, MediaDelete) in CompleteDeletion(db, event, media, at).value.files.receipts
  {
    var files := FinishDeletion(db.files, event, media, at).value;
    FinalizeFollows(db.(files := files), files.media[media].owner, at);
  }

  lemma ReceiptsStay(db: Inbox, e: Event, topic: Topic, event: Id)
    requires InboxOk(db) && LawfulEvent(e) && Receipt(db, topic, event)
    ensures Receipt(Next(db, e), topic, event) && InboxOk(Next(db, e))
  {
    NextFollows(db, e);
  }

  ghost predicate NoClashes(es: seq<Event>) { forall i, j :: 0 <= i < j < |es| ==> !Clashes(es[i], es[j]) }

  lemma NoClashesMore(e: Event, rest: seq<Event>)
    requires NoClashes(rest) && forall f :: f in rest ==> !Clashes(e, f)
    ensures NoClashes([e] + rest)
  {
    var all := [e] + rest;
    forall i, j | 0 <= i < j < |all| ensures !Clashes(all[i], all[j]) {
      if i == 0 { assert all[j] in rest; } else { assert all[i] == rest[i - 1] && all[j] == rest[j - 1]; }
    }
  }

  lemma {:induction false} EffectiveIsNew(db: Inbox, es: seq<Event>, m: Message)
    requires InboxOk(db) && LawfulAll(es) && Received(db, m)
    ensures forall e :: e in Effective(db, es) && e.Deliver? ==> !SameReceipt(e.message, m)
    decreases |es|
  {
    if es != [] {
      LawfulFirst(es);
      ReceiptsStay(db, es[0], TopicOf(m), m.event);
      EffectiveIsNew(Next(db, es[0]), es[1..], m);
    }
  }

  /** Exactly once: redeliveries, retries after a timeout that came too late, and
      deliveries that failed leave the tables as if every event had been handled
      once, by the first of its deliveries that succeeded, whatever else happens to
      the tables in between. */
  lemma {:induction false} EffectsHappenOnce(db: Inbox, es: seq<Event>)
    requires InboxOk(db) && LawfulAll(es)
    ensures RunEvents(db, Effective(db, es)) == RunEvents(db, es)
    ensures NoClashes(Effective(db, es))
    decreases |es|
  {
    if es != [] {
      var e, next := es[0], Next(db, es[0]);
      var rest := Effective(next, es[1..]);
      LawfulFirst(es);
      NextFollows(db, e);
      EffectsHappenOnce(next, es[1..]);
      if e.Deliver? && Commits(db, e) { HandledIsReceived(db, e.message, e.at); }
      if !e.Deliver? || Takes(db, e) {
        assert ([e] + rest)[1..] == rest;
        if e.Deliver? { EffectiveIsNew(next, es[1..], e.message); }
        NoClashesMore(e, rest);
      }
    }
  }

  // -------------------------------------------------------- effects, in their order

  /** A first success on this topic. */
  predicate TakesOn(db: Inbox, e: Event, topic: Topic) { Takes(db, e) && TopicOf(e.message) == topic }

  /** The events of the first successes on one topic, in order. */
  function Applied(db: Inbox, es: seq<Event>, topic: Topic): seq<Id>
    decreases |es|
  {
    if es == [] then []
    else
      (if TakesOn(db, es[0], topic) then [es[0].message.event] else []) + Applied(Next(db, es[0]), es[1..], topic)
  }

  lemma {:induction false} OneMore(db: Inbox, es: seq<Event>, e: Event, topic: Topic)
    ensures RunEvents(db, es + [e]) == Next(RunEvents(db, es), e)
    ensures Applied(db, es + [e], topic)
            == Applied(db, es, topic) + (if TakesOn(RunEvents(db, es), e, topic) then [e.message.event] else [])
    decreases |es|
  {
    if es == [] {
      assert es + [e] == [e] && [e][1..] == [];
      assert Applied(Next(db, e), [], topic) == [];
    } else {
      assert (es + [e])[1..] == es[1..] + [e];
      OneMore(Next(db, es[0]), es[1..], e, topic);
    }
  }

  lemma {:induction false} ReceivedAfter(db: Inbox, es: seq<Event>, topic: Topic, event: Id)
    requires InboxOk(db) && LawfulAll(es) && Receipt(db, topic, event)
    ensures Receipt(RunEvents(db, es), topic, event)
    decreases |es|
  {
    if es != [] {
      LawfulFirst(es);
      ReceiptsStay(db, es[0], topic, event);
      ReceivedAfter(Next(db, es[0]), es[1..], topic, event);
    }
  }

  /** What was applied has its receipt. */
  lemma {:induction false} AppliedIsReceived(db: Inbox, es: seq<Event>, topic: Topic, event: Id)
    requires InboxOk(db) && LawfulAll(es) && event in Applied(db, es, topic)
    ensures Receipt(RunEvents(db, es), topic, event) && !Receipt(db, topic, event)
    decreases |es|
  {
    if es != [] {
      LawfulFirst(es);
      NextFollows(db, es[0]);
      if TakesOn(db, es[0], topic) && es[0].message.event == event {
        HandledIsReceived(db, es[0].message, es[0].at);
        ReceivedAfter(Next(db, es[0]), es[1..], topic, event);
      } else {
        AppliedIsReceived(Next(db, es[0]), es[1..], topic, event);
        if Receipt(db, topic, event) { ReceiptsStay(db, es[0], topic, event); }
      }
    }
  }

  predicate NoRepeats(s: seq<Id>) { forall i, j :: 0 <= i < j < |s| ==> s[i] != s[j] }

  lemma {:induction false} AppliedIsDistinct(db: Inbox, es: seq<Event>, topic: Topic)
    requires InboxOk(db) && LawfulAll(es)
    ensures NoRepeats(Applied(db, es, topic))
    decreases |es|
  {
    if es != [] {
      var next := Next(db, es[0]);
      LawfulFirst(es);
      NextFollows(db, es[0]);
      AppliedIsDistinct(next, es[1..], topic);
      if TakesOn(db, es[0], topic) {
        HandledIsReceived(db, es[0].message, es[0].at);
        if es[0].message.event in Applied(next, es[1..], topic) {
          AppliedIsReceived(next, es[1..], topic, es[0].message.event);
        }
      }
      var head := if TakesOn(db, es[0], topic) then [es[0].message.event] else [];
      Prepended(head, Applied(next, es[1..], topic), Applied(db, es, topic));
    }
  }

  lemma Prepended(head: seq<Id>, rest: seq<Id>, all: seq<Id>)
    requires all == head + rest && |head| <= 1 && (head != [] ==> head[0] !in rest)
    requires NoRepeats(rest)
    ensures NoRepeats(all)
  {
    forall i, j | 0 <= i < j < |all| ensures all[i] != all[j] {
      assert all[j] == rest[j - |head|];
    }
  }

  // ---------------------------------------------------------------- from the start

  /** Every state of the system is well formed, and its results were set once. */
  lemma ReachedIsOk(es: seq<Event>)
    requires LawfulAll(es)
    ensures InboxOk(RunEvents(START, es)) && SetOnce(START, RunEvents(START, es)) && InboxOk(START)
  {
    GenerationGuarantees.EmptyIsCore();
    ResultsAreSetOnce(START, es);
  }
}
