/** The calls a consumer makes on one record: what a handler does in its one or two
    transactions, and exactly when a delivered or redelivered record is handled. */
module HandlerCalls {
  import opened Base
  import opened Media
  import opened GenerationStore
  import opened GenerationStoreAccounts
  import opened GenerationAssets
  import opened Delivery

  /** A record on the topic, as far as decoding looks at it. */
  datatype Record = Record(size: nat, parses: bool, event: Id, kind: Id, aggregate: Id, key: Id)

  const MAX_RECORD: nat := 4096
  const MAX_ATTEMPTS: nat := 3

  predicate Decodes(r: Record, kind: Id) {
    r.size <= MAX_RECORD && r.parses && r.event != 0 && r.aggregate != 0 && r.kind == kind && r.key == r.aggregate
  }

  /** What a check found out about the image. */
  datatype Finding = Finding(derivation: Option<Derivation>, ready: bool, reason: Id)

  /** One call of the handler: whether the consumer was cancelled before it, what
      other transactions committed before it and between its own two, whether it
      failed before the second (`broken`), and whether it ran out of time after its
      work was committed (`late`). */
  datatype Attempt = Attempt(
    stopped: bool, before: seq<Event>, between: seq<Event>, finding: Finding, at: Time, broken: bool, late: bool)

  function MessageFor(topic: Topic, r: Record, o: Finding): (m: Message)
    ensures TopicOf(m) == topic && m.event == r.event
  {
    match topic
    case Notifications => Notify(r.event, r.aggregate)
    case Checks => FinishCheck(r.event, r.aggregate, o.derivation, o.ready, o.reason)
    case Erasures => FinishErasure(r.event, r.aggregate)
  }

  /** The first transaction of a handler that has two; it looks the row up before
      any receipt. */
  function FirstEvent(topic: Topic, r: Record, at: Time): Option<Event> {
    match topic
    case Notifications => None
    case Checks => Some(Touch(MediaWork(BeginCheck(r.aggregate, at))))
    case Erasures => Some(Touch(MediaWork(BeginDeletion(r.aggregate, at))))
  }

  /** Whether the first transaction hands the asset on to the second. */
  predicate ToProcess(db: Inbox, topic: Topic, asset: Id) {
    match topic
    case Notifications => true
    case Checks => asset in db.store.files.media && db.store.files.media[asset].status.Checking?
    case Erasures =>
      asset in db.store.files.deletions && !db.store.files.deletions[asset].status.DeletionComplete?
  }

  function SecondPart(db: Inbox, topic: Topic, r: Record, a: Attempt): (Inbox, bool) {
    if a.broken then (db, false)
    else
      var m := MessageFor(topic, r, a.finding);
      var mid := RunEvents(db, a.between);
      (Next(mid, Deliver(m, a.at)), Commits(mid, Deliver(m, a.at)) && !a.late)
  }

  /** What follows the first transaction. */
  function AfterFirst(begun: Inbox, topic: Topic, r: Record, a: Attempt): (Inbox, bool) {
    if ToProcess(begun, topic, r.aggregate) then SecondPart(begun, topic, r, a) else (begun, !a.late)
  }

  function BothParts(db: Inbox, topic: Topic, r: Record, a: Attempt): (Inbox, bool) {
    var first := FirstEvent(topic, r, a.at);
    if first.None? then SecondPart(db, topic, r, a)
    else if !Commits(db, first.value) then (db, false)
    else AfterFirst(Next(db, first.value), topic, r, a)
  }

  /** The tables after one call, and whether it is taken for a success. */
  function Called(db: Inbox, topic: Topic, r: Record, a: Attempt): (Inbox, bool) {
    BothParts(RunEvents(db, a.before), topic, r, a)
  }

  /** Calls until one succeeds or the consumer is cancelled. */
  function CalledUntil(db: Inbox, topic: Topic, r: Record, attempts: seq<Attempt>): (Inbox, bool)
    decreases |attempts|
  {
    if attempts == [] || attempts[0].stopped then (db, false)
    else
      var c := Called(db, topic, r, attempts[0]);
      if c.1 then c else CalledUntil(c.0, topic, r, attempts[1..])
  }

  // ------------------------------------------------------------- what the log says

  /** Nothing is left to do for the asset: it has a check result, or was deleted, or
      its row has been erased with its owner. */
  predicate Settled(db: Db, topic: Topic, asset: Id) {
    && !topic.Notifications?
    && (RowErased(db, asset)
        || (asset in db.files.media
            && var s := db.files.media[asset].status; if topic.Checks? then Rank(s) >= 3 else s.Deleted?))
  }

  /** A record is written by the transaction that completes the upload, or requests
      the deletion, of its asset. */
  predicate Announced(db: Db, topic: Topic, asset: Id) {
    || topic.Notifications? || RowErased(db, asset)
    || (asset in db.files.media && Rank(db.files.media[asset].status) >= (if topic.Checks? then 1 else 4))
  }

  lemma SettledStays(a: Db, b: Db, topic: Topic, asset: Id)
    requires AssetIdsOk(a) && a.used <= b.used && AssetsFollow(a, b)
    ensures Settled(a, topic, asset) ==> Settled(b, topic, asset)
    ensures Announced(a, topic, asset) ==> Announced(b, topic, asset)
    ensures RowErased(a, asset) ==> RowErased(b, asset)
  {
    if asset in a.files.media && asset in b.files.media {
      assert CheckedOnce(a.files.media[asset], b.files.media[asset]);
    }
  }

  ghost predicate LawfulAttempt(a: Attempt) { LawfulAll(a.before) && LawfulAll(a.between) }

  lemma FirstIsLawful(topic: Topic, r: Record, at: Time)
    requires !topic.Notifications?
    ensures LawfulEvent(FirstEvent(topic, r, at).value)
  {
    MediaWorkIsLawful(if topic.Checks? then BeginCheck(r.aggregate, at) else BeginDeletion(r.aggregate, at));
  }

  lemma SecondFollows(db: Inbox, topic: Topic, r: Record, a: Attempt)
    requires InboxOk(db) && LawfulAll(a.between)
    ensures var b := SecondPart(db, topic, r, a).0; SetOnce(db, b) && InboxOk(b)
  {
    if a.broken {
      SetOnceReflexive(db);
    } else {
      var mid, last := RunEvents(db, a.between), Deliver(MessageFor(topic, r, a.finding), a.at);
      ResultsAreSetOnce(db, a.between);
      NextFollows(mid, last);
      SetOnceTransitive(db, mid, Next(mid, last));
    }
  }

  lemma ThenFollows(db: Inbox, begun: Inbox, topic: Topic, r: Record, a: Attempt)
    requires InboxOk(db) && SetOnce(db, begun) && InboxOk(begun) && LawfulAll(a.between)
    ensures var b := AfterFirst(begun, topic, r, a).0; SetOnce(db, b) && InboxOk(b)
  {
    SecondFollows(begun, topic, r, a);
    SetOnceTransitive(db, begun, SecondPart(begun, topic, r, a).0);
  }

  lemma PartsFollow(db: Inbox, topic: Topic, r: Record, a: Attempt)
    requires InboxOk(db) && LawfulAll(a.between)
    ensures var b := BothParts(db, topic, r, a).0; SetOnce(db, b) && InboxOk(b)
  {
    SetOnceReflexive(db);
    if topic.Notifications? {
      SecondFollows(db, topic, r, a);
    } else {
      var first := FirstEvent(topic, r, a.at).value;
      FirstIsLawful(topic, r, a.at);
      NextFollows(db, first);
      ThenFollows(db, Next(db, first), topic, r, a);
    }
  }

  /** A call is nothing but lawful transactions. */
  lemma CalledFollows(db: Inbox, topic: Topic, r: Record, a: Attempt)
    requires InboxOk(db) && LawfulAttempt(a)
    ensures var b := Called(db, topic, r, a).0; SetOnce(db, b) && InboxOk(b)
  {
    ResultsAreSetOnce(db, a.before);
    PartsFollow(RunEvents(db, a.before), topic, r, a);
    SetOnceTransitive(db, RunEvents(db, a.before), Called(db, topic, r, a).0);
  }

  // ----------------------------------------------------- when a record is handled

  /** The first transaction commits if and only if the row is there. */
  lemma FirstIff(db: Inbox, topic: Topic, r: Record, at: Time)
    requires MediaOk(db.store.files) && Announced(db.store, topic, r.aggregate) && !topic.Notifications?
    ensures Commits(db, FirstEvent(topic, r, at).value) <==> !RowErased(db.store, r.aggregate)
  {
    if r.aggregate in db.store.files.media { assert AssetOk(db.store.files, r.aggregate); }
  }

  /** What the first transaction finds done already, it does not hand on. */
  lemma SettledIsLeft(db: Inbox, topic: Topic, r: Record, at: Time)
    requires MediaOk(db.store.files) && Settled(db.store, topic, r.aggregate) && !RowErased(db.store, r.aggregate)
    ensures !ToProcess(Next(db, FirstEvent(topic, r, at).value), topic, r.aggregate)
  {
    assert AssetOk(db.store.files, r.aggregate);
  }

  /** A first transaction that commits without handing the asset on has found it
      finished. */
  lemma NothingToProcess(db: Inbox, topic: Topic, r: Record, at: Time)
    requires MediaOk(db.store.files) && Announced(db.store, topic, r.aggregate) && !topic.Notifications?
    requires Commits(db, FirstEvent(topic, r, at).value)
    requires !ToProcess(Next(db, FirstEvent(topic, r, at).value), topic, r.aggregate)
    ensures Settled(Next(db, FirstEvent(topic, r, at).value).store, topic, r.aggregate)
  {
    assert AssetOk(db.store.files, r.aggregate);
  }

  lemma ReceivedIsOk(db: Inbox, topic: Topic, r: Record, o: Finding, at: Time)
    requires Receipt(db, topic, r.event)
    ensures Handle(db, MessageFor(topic, r, o), at).Ok?
  {
  }

  lemma SecondReceived(db: Inbox, topic: Topic, r: Record, a: Attempt)
    requires InboxOk(db) && Receipt(db, topic, r.event) && LawfulAll(a.between) && !a.broken && !a.late
    ensures SecondPart(db, topic, r, a).1
  {
    ReceivedAfter(db, a.between, topic, r.event);
    ReceivedIsOk(RunEvents(db, a.between), topic, r, a.finding, a.at);
  }

  lemma ReceivedIff(db: Inbox, topic: Topic, r: Record, a: Attempt)
    requires InboxOk(db) && Announced(db.store, topic, r.aggregate) && !a.broken && !a.late
    requires Receipt(db, topic, r.event) && !topic.Notifications? && LawfulAll(a.between)
    ensures BothParts(db, topic, r, a).1 <==> !RowErased(db.store, r.aggregate)
  {
    var first := FirstEvent(topic, r, a.at).value;
    FirstIff(db, topic, r, a.at);
    FirstIsLawful(topic, r, a.at);
    ReceiptsStay(db, first, topic, r.event);
    SecondReceived(Next(db, first), topic, r, a);
  }

  lemma SettledIff(db: Inbox, topic: Topic, r: Record, a: Attempt)
    requires InboxOk(db) && Announced(db.store, topic, r.aggregate) && !a.late && Settled(db.store, topic, r.aggregate)
    ensures BothParts(db, topic, r, a).1 <==> !RowErased(db.store, r.aggregate)
  {
    FirstIff(db, topic, r, a.at);
    if !RowErased(db.store, r.aggregate) { SettledIsLeft(db, topic, r, a.at); }
  }

  /** Redelivery. For a record whose receipt is on file, or whose asset needs nothing
      more, a call that neither breaks nor runs out of time succeeds if and only if
      the row of the asset has not been erased -- whatever other transactions commit
      before it or in its middle. */
  lemma RedeliveredIff(db: Inbox, topic: Topic, r: Record, a: Attempt)
    requires InboxOk(db) && Announced(db.store, topic, r.aggregate) && !a.broken && !a.late
    requires LawfulAttempt(a) && (Receipt(db, topic, r.event) || Settled(db.store, topic, r.aggregate))
    ensures Called(db, topic, r, a).1
            <==> topic.Notifications? || !RowErased(RunEvents(db, a.before).store, r.aggregate)
  {
    var ready := RunEvents(db, a.before);
    ResultsAreSetOnce(db, a.before);
    SettledStays(db.store, ready.store, topic, r.aggregate);
    if Settled(db.store, topic, r.aggregate) {
      SettledIff(ready, topic, r, a);
    } else {
      ReceivedAfter(db, a.before, topic, r.event);
      if topic.Notifications? { SecondReceived(ready, topic, r, a); } else { ReceivedIff(ready, topic, r, a); }
    }
  }

  /** The asset is all that is left of an account deletion whose account was set to
      another status; the finalization at the end of its deletion is refused. */
  predicate LastOfReactivated(db: Db, asset: Id) {
    && asset in db.files.media
    && var u := db.files.media[asset].owner;
       && DeletionOpen(db, u) && Remaining(db.files, u) == {asset}
       && RemainingCleanups(db.rows, db.accounts[u].id) == {} && !(u in db.users && db.users[u].status.Leaving?)
  }

  lemma CheckIsFinished(db: Inbox, r: Record, a: Attempt)
    requires MediaOk(db.store.files) && ToProcess(db, Checks, r.aggregate) && a.between == [] && !a.broken && !a.late
    ensures SecondPart(db, Checks, r, a).1
  {
  }

  lemma FinishedRemaining(files: MediaDb, event: Id, asset: Id, at: Time)
    requires FinishDeletion(files, event, asset, at).Ok?
    ensures var b, u := FinishDeletion(files, event, asset, at).value, files.media[asset].owner;
            && b.media[asset].owner == u && asset in Remaining(files, u)
            && (Remaining(b, u) == {} <==> Remaining(files, u) == {asset})
  {
    var b, u := FinishDeletion(files, event, asset, at).value, files.media[asset].owner;
    assert Remaining(b, u) == Remaining(files, u) - {asset};
    if Remaining(b, u) == {} { assert Remaining(files, u) <= {asset}; }
  }

  lemma DeletionIsFinishedIff(db: Db, event: Id, asset: Id, at: Time)
    requires (event, MediaDelete) !in db.files.receipts && FinishDeletion(db.files, event, asset, at).Ok?
    ensures CompleteDeletion(db, event, asset, at).Ok? <==> !LastOfReactivated(db, asset)
  {
    FinishedRemaining(db.files, event, asset, at);
  }

  lemma BegunIsLast(db: Db, asset: Id, at: Time)
    requires OnMedia(db.files, BeginDeletion(asset, at)).Ok?
    ensures var b := db.(files := OnMedia(db.files, BeginDeletion(asset, at)).value);
            LastOfReactivated(b, asset) == LastOfReactivated(db, asset)
  {
    var b := db.(files := OnMedia(db.files, BeginDeletion(asset, at)).value);
    var u := db.files.media[asset].owner;
    assert Remaining(b.files, u) == Remaining(db.files, u);
  }

  lemma BegunDeletion(db: Inbox, r: Record, at: Time)
    requires Commits(db, FirstEvent(Erasures, r, at).value)
    ensures var b := Next(db, FirstEvent(Erasures, r, at).value).store;
            && OnMedia(db.store.files, BeginDeletion(r.aggregate, at)).Ok?
            && b == db.store.(files := OnMedia(db.store.files, BeginDeletion(r.aggregate, at)).value)
            && b.files.media == db.store.files.media && b.files.receipts == db.store.files.receipts
  {
  }

  lemma DeletionSecondIff(db: Inbox, r: Record, a: Attempt)
    requires MediaOk(db.store.files) && r.aggregate in db.store.files.media && ToProcess(db, Erasures, r.aggregate)
    requires a.between == [] && !a.broken && !a.late && !Receipt(db, Erasures, r.event)
    ensures SecondPart(db, Erasures, r, a).1 <==> !LastOfReactivated(db.store, r.aggregate)
  {
    assert AssetOk(db.store.files, r.aggregate);
    DeletionIsFinishedIff(db.store, r.event, r.aggregate, a.at);
  }

  predicate Undisturbed(a: Attempt) { !a.broken && !a.late && a.before == [] && a.between == [] }

  lemma CheckIff(db: Inbox, r: Record, a: Attempt)
    requires InboxOk(db) && Announced(db.store, Checks, r.aggregate) && Undisturbed(a)
    ensures BothParts(db, Checks, r, a).1 <==> !RowErased(db.store, r.aggregate)
  {
    var first := FirstEvent(Checks, r, a.at).value;
    FirstIff(db, Checks, r, a.at);
    FirstIsLawful(Checks, r, a.at);
    NextFollows(db, first);
    if ToProcess(Next(db, first), Checks, r.aggregate) { CheckIsFinished(Next(db, first), r, a); }
  }

  lemma DeletionIff(db: Inbox, r: Record, a: Attempt)
    requires InboxOk(db) && Announced(db.store, Erasures, r.aggregate) && Undisturbed(a)
    requires !Receipt(db, Erasures, r.event) && !Settled(db.store, Erasures, r.aggregate)
    ensures BothParts(db, Erasures, r, a).1 <==> !LastOfReactivated(db.store, r.aggregate)
  {
    var first := FirstEvent(Erasures, r, a.at).value;
    FirstIff(db, Erasures, r, a.at);
    FirstIsLawful(Erasures, r, a.at);
    NextFollows(db, first);
    BegunDeletion(db, r, a.at);
    BegunIsLast(db.store, r.aggregate, a.at);
    BegunIsToProcess(db, r, a.at);
    DeletionSecondIff(Next(db, first), r, a);
  }

  lemma BegunIsToProcess(db: Inbox, r: Record, at: Time)
    requires MediaOk(db.store.files) && r.aggregate in db.store.files.media
             && db.store.files.media[r.aggregate].status.Deleting?
    ensures ToProcess(Next(db, FirstEvent(Erasures, r, at).value), Erasures, r.aggregate)
  {
    assert AssetOk(db.store.files, r.aggregate);
  }

  /** First delivery and redelivery alike: an undisturbed call on any announced record
      succeeds if and only if the row of its asset has not been erased and, for a
      deletion without a receipt, its asset is not the last item of a closing account
      that was given another status. */
  lemma HandledIff(db: Inbox, topic: Topic, r: Record, a: Attempt)
    requires InboxOk(db) && Announced(db.store, topic, r.aggregate)
    requires Undisturbed(a)
    ensures Called(db, topic, r, a).1
            <==> topic.Notifications?
                 || (!RowErased(db.store, r.aggregate)
                     && (topic.Erasures? && !Receipt(db, topic, r.event) ==> !LastOfReactivated(db.store, r.aggregate)))
  {
    if Receipt(db, topic, r.event) || Settled(db.store, topic, r.aggregate) {
      RedeliveredIff(db, topic, r, a);
    } else if topic.Checks? {
      CheckIff(db, r, a);
    } else if topic.Erasures? {
      DeletionIff(db, r, a);
    }
  }

  lemma ErasedCall(db: Inbox, topic: Topic, r: Record, a: Attempt)
    requires InboxOk(db) && !topic.Notifications? && RowErased(db.store, r.aggregate) && LawfulAll(a.before)
    ensures Called(db, topic, r, a) == (RunEvents(db, a.before), false)
    ensures var b := RunEvents(db, a.before); InboxOk(b) && SetOnce(db, b) && RowErased(b.store, r.aggregate)
  {
    var ready := RunEvents(db, a.before);
    ResultsAreSetOnce(db, a.before);
    SettledStays(db.store, ready.store, topic, r.aggregate);
    FirstIff(ready, topic, r, a.at);
  }

  /** A record whose row has been erased is refused on every attempt for ever, with
      its receipt on file or not, whatever else happens. */
  lemma {:induction false} ErasedIsRefused(db: Inbox, topic: Topic, r: Record, attempts: seq<Attempt>)
    requires InboxOk(db) && !topic.Notifications? && RowErased(db.store, r.aggregate)
    requires forall a :: a in attempts ==> LawfulAttempt(a)
    ensures var (b, ok) := CalledUntil(db, topic, r, attempts);
            !ok && InboxOk(b) && SetOnce(db, b) && RowErased(b.store, r.aggregate)
    decreases |attempts|
  {
    if attempts == [] || attempts[0].stopped {
      SetOnceReflexive(db);
    } else {
      assert attempts[0] in attempts && forall a :: a in attempts[1..] ==> a in attempts;
      ErasedCall(db, topic, r, attempts[0]);
      var ready := RunEvents(db, attempts[0].before);
      ErasedIsRefused(ready, topic, r, attempts[1..]);
      SetOnceTransitive(db, ready, CalledUntil(ready, topic, r, attempts[1..]).0);
    }
  }
}
