/** The consumer of one topic: it calls the handler on one record after another and
    commits an offset only after its handler succeeded. Everything else in the
    system, the consumers of the other topics included, goes on in between. */
module DeliveryConsumer {
  import opened Base
  import opened GenerationAssets
  import opened Delivery
  import opened HandlerCalls

  /** What one poll meets: a fetch error, a record and the handler calls on it, and
      a commit that may be stored although it is reported as failed. */
  datatype Poll = Poll(fetched: bool, attempts: seq<Attempt>, stopped: bool, stored: bool, confirmed: bool)

  /** Lawful transactions and no delivery on this topic, which has one consumer. */
  ghost predicate Elsewhere(es: seq<Event>, topic: Topic) {
    LawfulAll(es) && forall e :: e in es && e.Deliver? ==> TopicOf(e.message) != topic
  }

  ghost predicate Undisputed(a: Attempt, topic: Topic) { Elsewhere(a.before, topic) && Elsewhere(a.between, topic) }

  ghost predicate WellFormed(p: Poll, topic: Topic) {
    && |p.attempts| == MAX_ATTEMPTS && (p.confirmed ==> p.stored)
    && forall a :: a in p.attempts ==> Undisputed(a, topic)
  }

  // ------------------------------------------------------------- the consumer's state

  /** The committed offset and the tables; every transaction since the start, and the
      offsets of the records that had an effect. */
  datatype Progress = Progress(
    topic: Topic, kind: Id, committed: nat, inbox: Inbox, history: seq<Event>, offsets: seq<nat>)

  ghost predicate IsHistory(p: Progress) { p.inbox == RunEvents(START, p.history) && LawfulAll(p.history) }

  /** The effects so far are those of the records at `offsets`, in log order, and none
      is of a record beyond the committed offset. */
  ghost predicate InOrder(p: Progress, log: seq<Record>) {
    Ordered(p.offsets, Applied(START, p.history, p.topic), p.committed, log)
  }

  ghost predicate Ordered(offsets: seq<nat>, applied: seq<Id>, committed: nat, log: seq<Record>) {
    && |offsets| == |applied|
    && (forall i :: 0 <= i < |offsets| ==>
          offsets[i] <= committed && offsets[i] < |log| && log[offsets[i]].event == applied[i])
    && (forall i, j :: 0 <= i < j < |offsets| ==> offsets[i] < offsets[j])
  }

  /** The record has its receipt, or nothing was left to do for it. */
  predicate Served(db: Inbox, topic: Topic, r: Record) {
    Receipt(db, topic, r.event) || Settled(db.store, topic, r.aggregate)
  }

  /** Every committed record has been decoded and served. */
  ghost predicate Done(p: Progress, log: seq<Record>) {
    && p.committed <= |log|
    && forall k :: 0 <= k < p.committed ==> Decodes(log[k], p.kind) && Served(p.inbox, p.topic, log[k])
  }

  /** Every record was written together with what it announces. */
  ghost predicate AllAnnounced(p: Progress, log: seq<Record>) {
    forall r :: r in log && Decodes(r, p.kind) ==> Announced(p.inbox.store, p.topic, r.aggregate)
  }

  ghost predicate SoundAt(p: Progress, log: seq<Record>) {
    IsHistory(p) && InOrder(p, log) && Done(p, log) && AllAnnounced(p, log)
  }

  lemma OrderedMore(offsets: seq<nat>, applied: seq<Id>, committed: nat, log: seq<Record>)
    requires Ordered(offsets, applied, committed, log) && committed < |log|
    requires forall i :: 0 <= i < |offsets| ==> offsets[i] < committed
    ensures Ordered(offsets + [committed], applied + [log[committed].event], committed, log)
  {
  }

  /** An event without a receipt has had no effect, so no effect is at its offset. */
  lemma NotYetApplied(p: Progress, log: seq<Record>, event: Id)
    requires IsHistory(p) && InOrder(p, log) && p.committed < |log|
    requires log[p.committed].event == event && !Receipt(p.inbox, p.topic, event)
    ensures forall i :: 0 <= i < |p.offsets| ==> p.offsets[i] < p.committed
  {
    ReachedIsOk(p.history);
    var applied := Applied(START, p.history, p.topic);
    forall i | 0 <= i < |p.offsets| ensures p.offsets[i] < p.committed {
      if p.offsets[i] == p.committed {
        assert applied[i] in applied;
        AppliedIsReceived(START, p.history, p.topic, event);
      }
    }
  }

  /** The state after one more transaction. */
  function Advanced(p: Progress, e: Event): Progress {
    var effect := if TakesOn(p.inbox, e, p.topic) then [p.committed] else [];
    p.(inbox := Next(p.inbox, e), history := p.history + [e], offsets := p.offsets + effect)
  }

  /** The transaction is lawful; a delivery on this topic is of the record at the
      committed offset. */
  ghost predicate OnTurn(p: Progress, e: Event, log: seq<Record>) {
    LawfulEvent(e) && (e.Deliver? && TopicOf(e.message) == p.topic ==>
      p.committed < |log| && log[p.committed].event == e.message.event)
  }

  lemma AdvancedOrder(p: Progress, e: Event, log: seq<Record>)
    requires IsHistory(p) && InOrder(p, log) && OnTurn(p, e, log)
    ensures IsHistory(Advanced(p, e)) && InOrder(Advanced(p, e), log)
  {
    OneMore(START, p.history, e, p.topic);
    if TakesOn(p.inbox, e, p.topic) {
      NotYetApplied(p, log, e.message.event);
      OrderedMore(p.offsets, Applied(START, p.history, p.topic), p.committed, log);
    }
  }

  lemma ServedStays(db: Inbox, e: Event, topic: Topic, r: Record)
    requires InboxOk(db) && LawfulEvent(e)
    ensures Served(db, topic, r) ==> Served(Next(db, e), topic, r)
    ensures Announced(db.store, topic, r.aggregate) ==> Announced(Next(db, e).store, topic, r.aggregate)
  {
    NextFollows(db, e);
    SettledStays(db.store, Next(db, e).store, topic, r.aggregate);
    if Receipt(db, topic, r.event) { ReceiptsStay(db, e, topic, r.event); }
  }

  lemma AdvancedLog(p: Progress, e: Event, log: seq<Record>)
    requires IsHistory(p) && LawfulEvent(e) && Done(p, log) && AllAnnounced(p, log)
    ensures Done(Advanced(p, e), log) && AllAnnounced(Advanced(p, e), log)
  {
    ReachedIsOk(p.history);
    forall k | 0 <= k < p.committed ensures Served(Next(p.inbox, e), p.topic, log[k]) {
      ServedStays(p.inbox, e, p.topic, log[k]);
    }
    forall r | r in log && Decodes(r, p.kind) ensures Announced(Next(p.inbox, e).store, p.topic, r.aggregate) {
      ServedStays(p.inbox, e, p.topic, r);
    }
  }

  lemma AdvancedIsSound(p: Progress, e: Event, log: seq<Record>)
    requires SoundAt(p, log) && OnTurn(p, e, log)
    ensures SoundAt(Advanced(p, e), log)
  {
    AdvancedOrder(p, e, log);
    AdvancedLog(p, e, log);
  }

  /** The offset moves on over a served record. */
  lemma CommittedIsSound(p: Progress, log: seq<Record>)
    requires SoundAt(p, log) && p.committed < |log|
    requires Decodes(log[p.committed], p.kind) && Served(p.inbox, p.topic, log[p.committed])
    ensures SoundAt(p.(committed := p.committed + 1), log)
  {
  }

  /** The tables after the first transaction of a handler, if it has two. */
  function BegunFrom(db: Inbox, topic: Topic, r: Record, at: Time): Inbox {
    var first := FirstEvent(topic, r, at);
    if first.None? then db else Next(db, first.value)
  }

  lemma LeftIsSettled(p: Progress, log: seq<Record>, r: Record, at: Time)
    requires SoundAt(p, log) && r in log && Decodes(r, p.kind)
    requires !p.topic.Notifications? && Commits(p.inbox, FirstEvent(p.topic, r, at).value)
    requires !ToProcess(BegunFrom(p.inbox, p.topic, r, at), p.topic, r.aggregate)
    ensures Settled(BegunFrom(p.inbox, p.topic, r, at).store, p.topic, r.aggregate)
  {
    ReachedIsOk(p.history);
    NothingToProcess(p.inbox, p.topic, r, at);
  }

  /** The next record is about an asset whose row has been erased. */
  predicate StuckAt(p: Progress, log: seq<Record>) {
    p.committed < |log| && !p.topic.Notifications? && RowErased(p.inbox.store, log[p.committed].aggregate)
  }

  lemma StuckIsRefused(p: Progress, log: seq<Record>, attempts: seq<Attempt>)
    requires IsHistory(p) && StuckAt(p, log) && forall a :: a in attempts ==> LawfulAttempt(a)
    ensures var (b, ok) := CalledUntil(p.inbox, p.topic, log[p.committed], attempts);
            !ok && StuckAt(p.(inbox := b), log)
  {
    ReachedIsOk(p.history);
    ErasedIsRefused(p.inbox, p.topic, log[p.committed], attempts);
  }

  // ------------------------------------------------------------------- the consumer

  class Consumer {
    const topic: Topic
    const kind: Id
    var committed: nat
    var inbox: Inbox
    ghost var history: seq<Event>
    ghost var offsets: seq<nat>

    ghost function Now(): Progress
      reads this
    {
      Progress(topic, kind, committed, inbox, history, offsets)
    }

    ghost predicate Sound(log: seq<Record>)
      reads this
    {
      SoundAt(Now(), log)
    }

    ghost predicate Stuck(log: seq<Record>)
      reads this
    {
      StuckAt(Now(), log)
    }

    constructor (topic: Topic, kind: Id)
      ensures Sound([]) && inbox == START && committed == 0
      ensures this.topic == topic && this.kind == kind
    {
      this.topic, this.kind := topic, kind;
      committed, inbox, history, offsets := 0, START, [], [];
    }

    /** One transaction of anybody else, or the first of a handler's two. */
    method Absorb(e: Event, ghost log: seq<Record>) returns (ok: bool)
      requires Sound(log) && LawfulEvent(e) && (e.Deliver? ==> TopicOf(e.message) != topic)
      modifies this`inbox, this`history
      ensures Sound(log) && inbox == Next(old(inbox), e) && (ok <==> Commits(old(inbox), e))
    {
      AdvancedIsSound(Now(), e, log);
      ghost var next := Advanced(Now(), e);
      ok := Commits(inbox, e);
      inbox := Next(inbox, e);
      history := history + [e];
      assert Now() == next;
    }

    method AbsorbAll(es: seq<Event>, ghost log: seq<Record>)
      requires Sound(log) && Elsewhere(es, topic)
      modifies this`inbox, this`history
      ensures Sound(log) && inbox == RunEvents(old(inbox), es)
    {
      var i := 0;
      while i < |es|
        invariant 0 <= i <= |es| && Sound(log) && RunEvents(old(inbox), es) == RunEvents(inbox, es[i..])
      {
        assert es[i] in es;
        var _ := Absorb(es[i], log);
        assert es[i..][1..] == es[i + 1..];
        i := i + 1;
      }
    }

    /** The transaction that leaves the receipt, for the record at the committed
        offset. */
    method Finish(record: Record, m: Message, at: Time, ghost log: seq<Record>) returns (ok: bool)
      requires Sound(log) && committed < |log| && log[committed] == record
      requires TopicOf(m) == topic && m.event == record.event
      modifies this`inbox, this`history, this`offsets
      ensures Sound(log) && inbox == Next(old(inbox), Deliver(m, at)) && (ok <==> Commits(old(inbox), Deliver(m, at)))
      ensures ok ==> Receipt(inbox, topic, record.event)
    {
      AdvancedIsSound(Now(), Deliver(m, at), log);
      ghost var next := Advanced(Now(), Deliver(m, at));
      offsets := next.offsets;
      ok := Commits(inbox, Deliver(m, at));
      if ok { HandledIsReceived(inbox, m, at); }
      inbox := Next(inbox, Deliver(m, at));
      history := history + [Deliver(m, at)];
      assert Now() == next;
    }

    /** The first of a handler's two transactions, or nothing if it has only one.
        `more` says that the second is to follow; without it the call succeeds only
        over an asset that needs nothing more. */
    method Begin(record: Record, at: Time, ghost log: seq<Record>) returns (ok: bool, more: bool)
      requires Sound(log) && record in log && Decodes(record, kind)
      modifies this`inbox, this`history
      ensures Sound(log) && (more ==> ok)
      ensures ok <==> FirstEvent(topic, record, at).None? || Commits(old(inbox), FirstEvent(topic, record, at).value)
      ensures inbox == if ok then BegunFrom(old(inbox), topic, record, at) else old(inbox)
      ensures ok ==> more == ToProcess(inbox, topic, record.aggregate)
      ensures ok && !more ==> Settled(inbox.store, topic, record.aggregate)
    {
      var first := FirstEvent(topic, record, at);
      ghost var before := Now();
      ok := true;
      if first.Some? {
        FirstIsLawful(topic, record, at);
        ok := Absorb(first.value, log);
      }
      more := ok && ToProcess(inbox, topic, record.aggregate);
      if ok && !more { LeftIsSettled(before, log, record, at); }
    }

    /** The second transaction, unless the handler breaks before it. */
    method Complete(record: Record, a: Attempt, ghost log: seq<Record>) returns (ok: bool)
      requires Sound(log) && committed < |log| && log[committed] == record && Elsewhere(a.between, topic)
      modifies this`inbox, this`history, this`offsets
      ensures Sound(log) && (inbox, ok) == SecondPart(old(inbox), topic, record, a)
      ensures ok ==> Receipt(inbox, topic, record.event)
    {
      if a.broken { return false; }
      AbsorbAll(a.between, log);
      ok := Finish(record, MessageFor(topic, record, a.finding), a.at, log);
      ok := ok && !a.late;
    }

    /** One call of the handler. It succeeds only with the receipt on file, or when
        its first transaction found nothing left to do. */
    method Call(record: Record, a: Attempt, ghost log: seq<Record>) returns (ok: bool)
      requires Sound(log) && committed < |log| && log[committed] == record && Decodes(record, kind)
      requires Undisputed(a, topic)
      modifies this`inbox, this`history, this`offsets
      ensures Sound(log) && (inbox, ok) == Called(old(inbox), topic, record, a)
      ensures ok ==> Served(inbox, topic, record)
    {
      AbsorbAll(a.before, log);
      var begun, more := Begin(record, a.at, log);
      if !more { return begun && !a.late; }
      ok := Complete(record, a, log);
    }

    /** Calls the handler until it succeeds, at most three times. */
    method HandleRecord(record: Record, attempts: seq<Attempt>, ghost log: seq<Record>) returns (ok: bool, ran: nat)
      requires Sound(log) && committed < |log| && log[committed] == record && Decodes(record, kind)
      requires |attempts| == MAX_ATTEMPTS && forall a :: a in attempts ==> Undisputed(a, topic)
      modifies this`inbox, this`history, this`offsets
      ensures Sound(log) && (inbox, ok) == CalledUntil(old(inbox), topic, record, attempts)
      ensures ok ==> ran > 0 && Served(inbox, topic, record)
      ensures ran <= MAX_ATTEMPTS && forall k :: 0 <= k < ran ==> !attempts[k].stopped
      ensures !ok ==> ran == MAX_ATTEMPTS || attempts[ran].stopped
    {
      ok, ran := false, 0;
      while ran < MAX_ATTEMPTS && !ok
        invariant 0 <= ran <= MAX_ATTEMPTS && Sound(log)
        invariant CalledUntil(old(inbox), topic, record, attempts)
                  == if ok then (inbox, true) else CalledUntil(inbox, topic, record, attempts[ran..])
        invariant ok ==> ran > 0 && Served(inbox, topic, record)
        invariant forall k :: 0 <= k < ran ==> !attempts[k].stopped
      {
        if attempts[ran].stopped { return; }
        assert attempts[ran] in attempts;
        ok := Call(record, attempts[ran], log);
        assert attempts[ran..][1..] == attempts[ran + 1..];
        ran := ran + 1;
      }
    }

    /** One session: from the committed offset, record by record, until an error, a
        cancellation or the end of the script. A session may be started again at any
        time; it resumes at the committed offset -- and never passes a record whose
        asset has been erased. */
    method Consume(log: seq<Record>, polls: seq<Poll>)
      requires Sound(log) && forall p :: p in polls ==> WellFormed(p, topic)
      modifies this
      ensures Sound(log) && committed >= old(committed)
      ensures old(Stuck(log)) ==> Stuck(log) && committed == old(committed)
    {
      var i := 0;
      while i < |polls|
        invariant Sound(log) && committed >= old(committed)
        invariant old(Stuck(log)) ==> Stuck(log) && committed == old(committed)
      {
        var poll := polls[i];
        i := i + 1;
        assert poll in polls;
        if !poll.fetched { return; }
        if committed == |log| { continue; }
        var record := log[committed];
        if !Decodes(record, kind) { return; }
        if Stuck(log) { StuckIsRefused(Now(), log, poll.attempts); }
        var ok, _ := HandleRecord(record, poll.attempts, log);
        if !ok || poll.stopped { return; }
        if poll.stored {
          CommittedIsSound(Now(), log);
          committed := committed + 1;
        }
        if !poll.confirmed { return; }
      }
    }

    /** What any number of sessions amount to: the tables are those of the first
        successes alone, all results are set once, each event of the topic has at most
        one effect, the effects are in log order, and every committed record has its
        receipt or needed nothing. */
    lemma SessionsAreExact(log: seq<Record>)
      requires Sound(log)
      ensures inbox == RunEvents(START, Effective(START, history)) && SetOnce(START, inbox)
      ensures var a := Applied(START, history, topic);
              && |offsets| == |a|
              && (forall i :: 0 <= i < |a| ==> offsets[i] < |log| && a[i] == log[offsets[i]].event)
              && (forall i, j :: 0 <= i < j < |a| ==> offsets[i] < offsets[j]) && NoRepeats(a)
              && (forall i :: 0 <= i < |a| ==> Receipt(inbox, topic, a[i]))
      ensures forall k :: 0 <= k < committed ==> Served(inbox, topic, log[k])
    {
      ReachedIsOk(history);
      EffectsHappenOnce(START, history);
      AppliedIsDistinct(START, history, topic);
      forall i | 0 <= i < |offsets| ensures Receipt(inbox, topic, Applied(START, history, topic)[i]) {
        AppliedIsReceived(START, history, topic, Applied(START, history, topic)[i]);
      }
    }

    /** What was sound stays sound while the topic grows. */
    lemma LogGrows(log: seq<Record>, more: seq<Record>)
      requires Sound(log) && AllAnnounced(Now(), log + more)
      ensures Sound(log + more)
    {
    }
  }
}
