/** The finalization of one account deletion under READ COMMITTED, statement by
    statement. A finisher writes its own item, takes the row lock of the pending
    deletion request, counts the remaining assets, counts the remaining linked
    cleanup requests, and commits; until it commits, nobody else sees its write.
    Other transactions run between any two of these statements. */
module Finalization {
  import opened Base

  datatype Kind = AssetItem | CleanupItem

  /** Where a finisher stands. `Decided(true)` means that it erases the account. */
  datatype Phase = Wrote | Locked | CountedAssets(left: bool) | Decided(erase: bool)

  datatype Tx = Tx(item: Id, phase: Phase)

  /** `done` holds the items whose completion is committed; `holder` is the
      transaction that holds the request row lock. */
  datatype State = State(
    items: map<Id, Kind>, done: set<Id>, pending: bool, erased: bool, holder: Option<Id>, txs: map<Id, Tx>)

  datatype Event =
    | Open(cleanups: set<Id>)
    | Write(tx: Id, item: Id)
    | Lock(tx: Id)
    | FindNoRequest(tx: Id)
    | CountAssets(tx: Id)
    | CountCleanups(tx: Id)
    | Commit(tx: Id)
    | Abort(tx: Id)
    | Reopen(item: Id)

  /** An account with these items, before its deletion is requested. */
  function Start(items: map<Id, Kind>, done: set<Id>): State { State(items, done, false, false, None, map[]) }

  function Undone(s: State): set<Id> { set i | i in s.items && i !in s.done }

  /** What a statement of this transaction sees as not finished: committed facts
      and its own write. */
  function Seen(s: State, tx: Id, kind: Kind): set<Id>
    requires tx in s.txs
  {
    set i | i in Undone(s) && s.items[i] == kind && i != s.txs[tx].item
  }

  /** Which statement may run next. `exclusive` is the row lock: without it, a
      second finisher may count while the first has not committed. Opening locks
      every asset and every attached request first, so no finisher is in flight;
      a finisher locks its own item's row until it commits. */
  predicate Enabled(s: State, e: Event, exclusive: bool) {
    match e
    case Open(cleanups) => !s.pending && !s.erased && s.txs == map[] && forall c :: c in cleanups ==> c !in s.items
    case Write(tx, item) =>
      tx !in s.txs && item in Undone(s) && !s.erased && forall t :: t in s.txs ==> s.txs[t].item != item
    case Lock(tx) => tx in s.txs && s.txs[tx].phase.Wrote? && s.pending && (exclusive ==> s.holder.None?)
    case FindNoRequest(tx) => tx in s.txs && s.txs[tx].phase.Wrote? && !s.pending
    case CountAssets(tx) => tx in s.txs && s.txs[tx].phase.Locked?
    case CountCleanups(tx) => tx in s.txs && s.txs[tx].phase.CountedAssets?
    case Commit(tx) => tx in s.txs && s.txs[tx].phase.Decided?
    case Abort(tx) => tx in s.txs
    case Reopen(item) =>
      item in s.items && item in s.done && s.items[item].CleanupItem? && !s.erased
      && forall t :: t in s.txs ==> s.txs[t].item != item
  }

  function WithCleanups(items: map<Id, Kind>, cleanups: set<Id>): map<Id, Kind> {
    items + (map c | c in cleanups :: CleanupItem)
  }

  function Ended(s: State, tx: Id): State {
    s.(txs := s.txs - {tx}, holder := if s.holder == Some(tx) then None else s.holder)
  }

  function Next(s: State, e: Event): State
    requires Enabled(s, e, false)
  {
    match e
    case Open(cleanups) =>
      var begun := s.(items := WithCleanups(s.items, cleanups));
      if Undone(begun) == {} then begun.(erased := true) else begun.(pending := true)
    case Write(tx, item) => s.(txs := s.txs[tx := Tx(item, Wrote)])
    case Lock(tx) => s.(holder := Some(tx), txs := s.txs[tx := s.txs[tx].(phase := Locked)])
    case FindNoRequest(tx) => s.(txs := s.txs[tx := s.txs[tx].(phase := Decided(false))])
    case CountAssets(tx) =>
      s.(txs := s.txs[tx := s.txs[tx].(phase := CountedAssets(Seen(s, tx, AssetItem) != {}))])
    case CountCleanups(tx) =>
      var erase := !s.txs[tx].phase.left && Seen(s, tx, CleanupItem) == {};
      s.(txs := s.txs[tx := s.txs[tx].(phase := Decided(erase))])
    case Commit(tx) =>
      var committed := s.(done := s.done + {s.txs[tx].item});
      Ended(if s.txs[tx].phase.erase then committed.(pending := false, erased := true) else committed, tx)
    case Abort(tx) => Ended(s, tx)
    case Reopen(item) => s.(done := s.done - {item})
  }

  /** An execution in which every statement was allowed when it ran. */
  predicate Runs(s: State, events: seq<Event>, exclusive: bool)
    decreases |events|
  {
    events == []
    || (Enabled(s, events[0], exclusive) && Enabled(s, events[0], false)
        && Runs(Next(s, events[0]), events[1..], exclusive))
  }

  function After(s: State, events: seq<Event>, exclusive: bool): State
    requires Runs(s, events, exclusive)
    decreases |events|
  {
    if events == [] then s else After(Next(s, events[0]), events[1..], exclusive)
  }

  // ----------------------------------------------------------------- invariant

  predicate PastLock(p: Phase) { !p.Wrote? }

  /** What a finisher past the lock has seen is still so: only the holder of the
      lock can turn an unfinished item into a finished one. */
  predicate SeenHolds(s: State, tx: Id)
    requires tx in s.txs
  {
    match s.txs[tx].phase
    case CountedAssets(left) => left ==> Seen(s, tx, AssetItem) != {}
    case Decided(erase) => !erase ==> Seen(s, tx, AssetItem) != {} || Seen(s, tx, CleanupItem) != {}
    case _ => true
  }

  ghost predicate Inv(s: State) {
    && (forall t :: t in s.txs ==> s.txs[t].item in Undone(s))
    && (forall t, u :: t in s.txs && u in s.txs && t != u ==> s.txs[t].item != s.txs[u].item)
    && (s.holder.Some? ==> s.holder.value in s.txs && PastLock(s.txs[s.holder.value].phase))
    && (s.pending ==>
          && !s.erased && Undone(s) != {}
          && (forall t :: t in s.txs && PastLock(s.txs[t].phase) ==> s.holder == Some(t) && SeenHolds(s, t)))
    && (s.erased ==> !s.pending)
  }

  lemma SeenKept(s: State, n: State, tx: Id, other: Id)
    requires Inv(s) && s.pending && tx in s.txs && tx in n.txs && n.txs[tx] == s.txs[tx]
    requires n.items == s.items && n.done <= s.done && PastLock(s.txs[tx].phase)
    ensures SeenHolds(n, tx)
  {
    assert SeenHolds(s, tx);
    assert Seen(s, tx, AssetItem) <= Seen(n, tx, AssetItem) && Seen(s, tx, CleanupItem) <= Seen(n, tx, CleanupItem);
  }

  lemma CommitKeeps(s: State, tx: Id)
    requires Inv(s) && Enabled(s, Commit(tx), true)
    ensures Inv(Next(s, Commit(tx)))
  {
    var n := Next(s, Commit(tx));
    forall t | t in n.txs ensures n.txs[t].item in Undone(n) {
      assert s.txs[t].item in Undone(s) && t != tx;
    }
    if n.pending {
      assert SeenHolds(s, tx);
      assert Seen(s, tx, AssetItem) <= Undone(n) && Seen(s, tx, CleanupItem) <= Undone(n);
    }
  }

  lemma StepKeeps(s: State, e: Event)
    requires Inv(s) && Enabled(s, e, true)
    ensures Inv(Next(s, e))
  {
    var n := Next(s, e);
    match e
    case Open(cleanups) => assert n.txs == map[];
    case Write(tx, item) =>
      forall t | s.pending && t in n.txs && PastLock(n.txs[t].phase)
        ensures SeenHolds(n, t)
      {
        SeenKept(s, n, t, item);
      }
    case Lock(tx) =>
    case FindNoRequest(tx) =>
    case CountAssets(tx) => assert n.txs[tx].phase.left ==> Seen(n, tx, AssetItem) == Seen(s, tx, AssetItem);
    case CountCleanups(tx) =>
      assert Seen(n, tx, AssetItem) == Seen(s, tx, AssetItem) && Seen(n, tx, CleanupItem) == Seen(s, tx, CleanupItem);
    case Commit(tx) => CommitKeeps(s, tx);
    case Abort(tx) =>
      forall t | s.pending && t in n.txs && PastLock(n.txs[t].phase) ensures SeenHolds(n, t) { SeenKept(s, n, t, tx); }
    case Reopen(item) =>
      assert Undone(s) <= Undone(n);
      forall t | s.pending && t in n.txs && PastLock(n.txs[t].phase)
        ensures SeenHolds(n, t)
      {
        SeenKept(s, n, t, item);
      }
  }

  lemma {:induction false} RunKeeps(s: State, events: seq<Event>)
    requires Inv(s) && Runs(s, events, true)
    ensures Inv(After(s, events, true))
    decreases |events|
  {
    if events != [] {
      StepKeeps(s, events[0]);
      RunKeeps(Next(s, events[0]), events[1..]);
    }
  }

  /** No lost finalization: however the statements of any number of finishers,
      reopenings and rollbacks interleave, a deletion request that is still pending
      has an item whose completion is not committed. Whoever commits the last one
      erases the account in the same transaction. */
  lemma NoFinalizationIsLost(items: map<Id, Kind>, done: set<Id>, events: seq<Event>)
    requires Runs(Start(items, done), events, true)
    ensures var s := After(Start(items, done), events, true); s.pending ==> Undone(s) != {}
  {
    RunKeeps(Start(items, done), events);
  }

  // --------------------------------------------------- the lock is what does it

  lemma Then(s: State, e: Event, rest: seq<Event>, exclusive: bool)
    requires Enabled(s, e, exclusive) && Enabled(s, e, false) && Runs(Next(s, e), rest, exclusive)
    ensures Runs(s, [e] + rest, exclusive) && After(s, [e] + rest, exclusive) == After(Next(s, e), rest, exclusive)
  {
    assert ([e] + rest)[1..] == rest;
  }

  const TWO_ASSETS := Start(map[1 := AssetItem, 2 := AssetItem], {})

  /** A pending request, two assets, and two finishers that each wrote one. */
  const BOTH_WRITTEN :=
    State(map[1 := AssetItem, 2 := AssetItem], {}, true, false, None, map[1 := Tx(1, Wrote), 2 := Tx(2, Wrote)])

  /** Requesting the deletion and two writes lead there, lock or no lock. */
  lemma BothWrite(exclusive: bool)
    ensures Runs(TWO_ASSETS, [Open({}), Write(1, 1), Write(2, 2)], exclusive)
    ensures After(TWO_ASSETS, [Open({}), Write(1, 1), Write(2, 2)], exclusive) == BOTH_WRITTEN
  {
    var begun := TWO_ASSETS.(pending := true);
    assert 1 in Undone(begun) && 2 in Undone(begun);
    assert Next(TWO_ASSETS, Open({})) == begun by {
      assert WithCleanups(TWO_ASSETS.items, {}) == TWO_ASSETS.items;
    }
    var first := begun.(txs := map[1 := Tx(1, Wrote)]);
    assert Next(begun, Write(1, 1)) == first;
    assert 2 in Undone(first);
    assert Next(first, Write(2, 2)) == BOTH_WRITTEN;
    Then(first, Write(2, 2), [], exclusive);
    Then(begun, Write(1, 1), [Write(2, 2)], exclusive);
    Then(TWO_ASSETS, Open({}), [Write(1, 1), Write(2, 2)], exclusive);
  }

  /** Both finishers count before either commits. */
  lemma BothCount(a: State, b: State, c: State, d: State)
    requires a == BOTH_WRITTEN.(holder := Some(2), txs := map[1 := Tx(1, Locked), 2 := Tx(2, Locked)])
    requires b == a.(txs := map[1 := Tx(1, CountedAssets(true)), 2 := Tx(2, CountedAssets(true))])
    requires c == a.(txs := map[1 := Tx(1, Decided(false)), 2 := Tx(2, Decided(false))])
    requires d == c.(done := {1, 2}, holder := None, txs := map[])
    ensures Runs(a, [CountAssets(1), CountAssets(2)], false) && After(a, [CountAssets(1), CountAssets(2)], false) == b
    ensures Runs(b, [CountCleanups(1), CountCleanups(2)], false)
            && After(b, [CountCleanups(1), CountCleanups(2)], false) == c
    ensures Runs(c, [Commit(1), Commit(2)], false) && After(c, [Commit(1), Commit(2)], false) == d
  {
    var a1 := Next(a, CountAssets(1));
    assert 2 in Seen(a, 1, AssetItem) && 1 in Seen(a1, 2, AssetItem);
    Then(a1, CountAssets(2), [], false);
    Then(a, CountAssets(1), [CountAssets(2)], false);
    var b1 := Next(b, CountCleanups(1));
    Then(b1, CountCleanups(2), [], false);
    Then(b, CountCleanups(1), [CountCleanups(2)], false);
    var c1 := Next(c, Commit(1));
    Then(c1, Commit(2), [], false);
    Then(c, Commit(1), [Commit(2)], false);
  }

  lemma {:induction false} Compose(s: State, first: seq<Event>, rest: seq<Event>, exclusive: bool)
    requires Runs(s, first, exclusive) && Runs(After(s, first, exclusive), rest, exclusive)
    ensures Runs(s, first + rest, exclusive)
            && After(s, first + rest, exclusive) == After(After(s, first, exclusive), rest, exclusive)
    decreases |first|
  {
    if first == [] {
      assert first + rest == rest;
    } else {
      Compose(Next(s, first[0]), first[1..], rest, exclusive);
      assert first + rest == [first[0]] + (first[1..] + rest);
      Then(s, first[0], first[1..] + rest, exclusive);
    }
  }

  /** Two assets finished at once: with the lock the second count waits for the
      first commit; without it each finisher misses the other's write, and the
      request stays pending with nothing left to finish it. */
  lemma WithoutLockFinalizationIsLost() returns (events: seq<Event>)
    ensures Runs(TWO_ASSETS, events, false)
    ensures var s := After(TWO_ASSETS, events, false); s.pending && Undone(s) == {} && s.txs == map[]
  {
    var a := BOTH_WRITTEN.(holder := Some(2), txs := map[1 := Tx(1, Locked), 2 := Tx(2, Locked)]);
    var b := a.(txs := map[1 := Tx(1, CountedAssets(true)), 2 := Tx(2, CountedAssets(true))]);
    var c := a.(txs := map[1 := Tx(1, Decided(false)), 2 := Tx(2, Decided(false))]);
    var d := c.(done := {1, 2}, holder := None, txs := map[]);
    var locked := Next(BOTH_WRITTEN, Lock(1));
    assert locked == BOTH_WRITTEN.(holder := Some(1), txs := map[1 := Tx(1, Locked), 2 := Tx(2, Wrote)]);
    Then(locked, Lock(2), [], false);
    assert Next(locked, Lock(2)) == a;
    Then(BOTH_WRITTEN, Lock(1), [Lock(2)], false);
    BothCount(a, b, c, d);
    Compose(a, [CountAssets(1), CountAssets(2)], [CountCleanups(1), CountCleanups(2)], false);
    Compose(a, [CountAssets(1), CountAssets(2)] + [CountCleanups(1), CountCleanups(2)], [Commit(1), Commit(2)], false);
    events := [CountAssets(1), CountAssets(2)] + [CountCleanups(1), CountCleanups(2)] + [Commit(1), Commit(2)];
    Compose(BOTH_WRITTEN, [Lock(1), Lock(2)], events, false);
    events := [Lock(1), Lock(2)] + events;
    BothWrite(false);
    Compose(TWO_ASSETS, [Open({}), Write(1, 1), Write(2, 2)], events, false);
    events := [Open({}), Write(1, 1), Write(2, 2)] + events;
  }

  // ------------------------------------------------------------ erasing too early

  /** Past the lock of a pending request, and not yet refused. */
  predicate Counting(p: Phase) { p.Locked? || p.CountedAssets? || (p.Decided? && p.erase) }

  /** Everything unfinished besides the transaction's own item. */
  function Others(s: State, tx: Id): set<Id>
    requires tx in s.txs
  {
    Undone(s) - {s.txs[tx].item}
  }

  /** A finisher that is counting holds the request row, the request is pending, and
      an empty first count still stands: no asset can be reopened. */
  ghost predicate Counts(s: State) {
    && Inv(s)
    && (forall t :: t in s.txs && Counting(s.txs[t].phase) ==> s.pending)
    && (forall t :: t in s.txs && s.txs[t].phase == CountedAssets(false) ==> Seen(s, t, AssetItem) == {})
  }

  lemma StepCounts(s: State, e: Event)
    requires Counts(s) && Enabled(s, e, true)
    ensures Counts(Next(s, e))
  {
    var n := Next(s, e);
    StepKeeps(s, e);
    forall t | t in n.txs && n.txs[t].phase == CountedAssets(false) ensures Seen(n, t, AssetItem) == {} {
      if t in s.txs && n.txs[t] == s.txs[t] {
        assert Seen(s, t, AssetItem) == {};
        assert Seen(n, t, AssetItem) <= Seen(s, t, AssetItem);
      } else {
        assert Seen(n, t, AssetItem) == Seen(s, t, AssetItem);
      }
    }
  }

  lemma {:induction false} RunCounts(s: State, events: seq<Event>)
    requires Counts(s) && Runs(s, events, true)
    ensures Counts(After(s, events, true))
    decreases |events|
  {
    if events != [] {
      StepCounts(s, events[0]);
      RunCounts(Next(s, events[0]), events[1..]);
    }
  }

  /** While a finisher that decided to erase holds the row, nobody commits, and only
      a reopening changes what is unfinished. */
  lemma WindowStep(s: State, e: Event, tx: Id)
    requires Counts(s) && Enabled(s, e, true) && e != Commit(tx) && e != Abort(tx)
    requires tx in s.txs && s.txs[tx].phase == Decided(true)
    ensures var n := Next(s, e);
            && tx in n.txs && n.txs[tx] == s.txs[tx]
            && (Others(n, tx) == {} <==> Others(s, tx) == {} && !e.Reopen?)
  {
    var n := Next(s, e);
    assert s.holder == Some(tx);
    if e.Reopen? {
      assert e.item in Others(n, tx);
    } else {
      assert n.done == s.done && n.items == s.items;
    }
  }

  lemma {:induction false} Window(s: State, events: seq<Event>, tx: Id)
    requires Counts(s) && Runs(s, events, true) && Commit(tx) !in events && Abort(tx) !in events
    requires tx in s.txs && s.txs[tx].phase == Decided(true)
    ensures var n := After(s, events, true);
            && tx in n.txs && n.txs[tx] == s.txs[tx]
            && (Others(n, tx) == {} <==> Others(s, tx) == {} && forall e :: e in events ==> !e.Reopen?)
    decreases |events|
  {
    if events != [] {
      StepCounts(s, events[0]);
      WindowStep(s, events[0], tx);
      Window(Next(s, events[0]), events[1..], tx);
      assert events == [events[0]] + events[1..];
    }
  }

  /** The recount that decides to erase has found everything else finished. */
  lemma DecidedFinished(s: State, tx: Id)
    requires Counts(s) && Enabled(s, CountCleanups(tx), true)
             && Next(s, CountCleanups(tx)).txs[tx].phase == Decided(true)
    ensures Others(Next(s, CountCleanups(tx)), tx) == {}
  {
    var n := Next(s, CountCleanups(tx));
    assert Others(n, tx) <= Seen(s, tx, AssetItem) + Seen(s, tx, CleanupItem);
  }

  /** Where the finisher that has decided to erase made its recount: at `i`, unless it
      had decided already. */
  lemma {:induction false} Recount(s: State, events: seq<Event>, tx: Id) returns (i: nat, within: bool)
    requires Runs(s, events, true)
    requires var n := After(s, events, true); tx in n.txs && n.txs[tx].phase == Decided(true)
    ensures within ==> i < |events| && events[i] == CountCleanups(tx)
    ensures !within ==> i == 0 && tx in s.txs && s.txs[tx].phase == Decided(true)
    ensures var rest := if within then events[i + 1..] else events; Commit(tx) !in rest && Abort(tx) !in rest
    decreases |events|
  {
    if events == [] {
      i, within := 0, false;
    } else {
      i, within := Recount(Next(s, events[0]), events[1..], tx);
      assert events == [events[0]] + events[1..];
      if within {
        i := i + 1;
        assert events[i + 1..] == events[1..][i..];
      } else if events[0] == CountCleanups(tx) {
        within := true;
      }
    }
  }

  lemma {:induction false} SplitRun(s: State, first: seq<Event>, rest: seq<Event>)
    requires Runs(s, first + rest, true)
    ensures Runs(s, first, true) && Runs(After(s, first, true), rest, true)
    ensures After(s, first + rest, true) == After(After(s, first, true), rest, true)
    decreases |first|
  {
    if first == [] {
      assert first + rest == rest;
    } else {
      assert (first + rest)[1..] == first[1..] + rest;
      SplitRun(Next(s, first[0]), first[1..], rest);
    }
  }

  /** In every execution, a commit that erases the account leaves nothing unfinished
      if and only if no complete request was reopened since that finisher recounted
      the requests. Reopenings before the recount do no harm. */
  lemma ErasesFinishedIff(items: map<Id, Kind>, done: set<Id>, events: seq<Event>, tx: Id) returns (i: nat)
    requires Runs(Start(items, done), events, true)
    requires var s := After(Start(items, done), events, true); tx in s.txs && s.txs[tx].phase == Decided(true)
    ensures i < |events| && events[i] == CountCleanups(tx) && Commit(tx) !in events[i + 1..]
            && Abort(tx) !in events[i + 1..]
    ensures var n := Next(After(Start(items, done), events, true), Commit(tx));
            n.erased && (Undone(n) == {} <==> forall e :: e in events[i + 1..] ==> !e.Reopen?)
  {
    var within;
    var start := Start(items, done);
    i, within := Recount(start, events, tx);
    var before, between := events[..i], events[i + 1..];
    assert events == before + ([CountCleanups(tx)] + between);
    SplitRun(start, before, [CountCleanups(tx)] + between);
    RunCounts(start, before);
    var s := After(start, before, true);
    assert ([CountCleanups(tx)] + between)[1..] == between;
    var counted := Next(s, CountCleanups(tx));
    StepCounts(s, CountCleanups(tx));
    StaysDecided(counted, between, tx);
    DecidedFinished(s, tx);
    Window(counted, between, tx);
    var last := After(start, events, true);
    assert Undone(Next(last, Commit(tx))) == Others(last, tx);
  }

  /** Once decided, a finisher only commits or rolls back. */
  lemma {:induction false} StaysDecided(s: State, events: seq<Event>, tx: Id)
    requires Runs(s, events, true) && Commit(tx) !in events && Abort(tx) !in events
    requires tx in s.txs && s.txs[tx].phase.Decided?
    ensures tx in After(s, events, true).txs && After(s, events, true).txs[tx] == s.txs[tx]
    decreases |events|
  {
    if events != [] {
      assert events == [events[0]] + events[1..];
      StaysDecided(Next(s, events[0]), events[1..], tx);
    }
  }

  /** One asset and one linked request: the request is finished, the asset is written
      and counted, the request is reopened by a late target, and the commit erases
      the account regardless. */
  lemma ReopeningIsOverlooked() returns (events: seq<Event>)
    ensures Runs(Start(map[1 := AssetItem], {}), events, true) && |events| > 0
    ensures var s := After(Start(map[1 := AssetItem], {}), events, true); s.erased && 2 in Undone(s)
  {
    var start := Start(map[1 := AssetItem], {});
    var begun := State(map[1 := AssetItem, 2 := CleanupItem], {}, true, false, None, map[]);
    var half := begun.(done := {2});
    var decided := half.(holder := Some(11), txs := map[11 := Tx(1, Decided(true))]);
    OverlookedOpening(start, begun);
    FinishRequest(begun, half);
    CountLastAsset(half, decided);
    EraseRegardless(decided);
    var last := [Reopen(2), Commit(11)];
    var recount := [Write(11, 1), Lock(11), CountAssets(11), CountCleanups(11)];
    Compose(half, recount, last, true);
    var finish := [Write(10, 2), Lock(10), CountAssets(10), CountCleanups(10), Commit(10)];
    Compose(begun, finish, recount + last, true);
    Compose(start, [Open({2})], finish + (recount + last), true);
    events := [Open({2})] + (finish + (recount + last));
  }

  lemma EraseRegardless(decided: State)
    requires decided == State(map[1 := AssetItem, 2 := CleanupItem], {2}, true, false, Some(11),
                              map[11 := Tx(1, Decided(true))])
    ensures Runs(decided, [Reopen(2), Commit(11)], true)
    ensures var s := After(decided, [Reopen(2), Commit(11)], true); s.erased && 2 in Undone(s)
  {
    var reopened := decided.(done := {});
    var erased := reopened.(done := {1}, pending := false, erased := true, holder := None, txs := map[]);
    assert Next(decided, Reopen(2)) == reopened && Next(reopened, Commit(11)) == erased;
    Then(reopened, Commit(11), [], true);
    Then(decided, Reopen(2), [Commit(11)], true);
  }

  lemma OverlookedOpening(start: State, begun: State)
    requires start == Start(map[1 := AssetItem], {})
    requires begun == State(map[1 := AssetItem, 2 := CleanupItem], {}, true, false, None, map[])
    ensures Runs(start, [Open({2})], true) && After(start, [Open({2})], true) == begun
  {
    assert WithCleanups(start.items, {2}) == begun.items;
    assert 1 in Undone(begun.(pending := false));
    assert Next(start, Open({2})) == begun;
    Then(start, Open({2}), [], true);
  }

  lemma FinishRequest(begun: State, half: State)
    requires begun == State(map[1 := AssetItem, 2 := CleanupItem], {}, true, false, None, map[])
    requires half == begun.(done := {2})
    ensures var events := [Write(10, 2), Lock(10), CountAssets(10), CountCleanups(10), Commit(10)];
            Runs(begun, events, true) && After(begun, events, true) == half
  {
    var a := begun.(txs := map[10 := Tx(2, Wrote)]);
    var b := begun.(holder := Some(10), txs := map[10 := Tx(2, Locked)]);
    var c := b.(txs := map[10 := Tx(2, CountedAssets(true))]);
    var d := b.(txs := map[10 := Tx(2, Decided(false))]);
    assert 2 in Undone(begun) && Next(begun, Write(10, 2)) == a && Next(a, Lock(10)) == b;
    assert 1 in Seen(b, 10, AssetItem) && Next(b, CountAssets(10)) == c;
    assert Next(c, CountCleanups(10)) == d && Next(d, Commit(10)) == half;
    Then(d, Commit(10), [], true);
    Then(c, CountCleanups(10), [Commit(10)], true);
    Then(b, CountAssets(10), [CountCleanups(10), Commit(10)], true);
    Then(a, Lock(10), [CountAssets(10), CountCleanups(10), Commit(10)], true);
    Then(begun, Write(10, 2), [Lock(10), CountAssets(10), CountCleanups(10), Commit(10)], true);
  }

  lemma CountLastAsset(half: State, decided: State)
    requires half == State(map[1 := AssetItem, 2 := CleanupItem], {2}, true, false, None, map[])
    requires decided == half.(holder := Some(11), txs := map[11 := Tx(1, Decided(true))])
    ensures var events := [Write(11, 1), Lock(11), CountAssets(11), CountCleanups(11)];
            Runs(half, events, true) && After(half, events, true) == decided
  {
    var a := half.(txs := map[11 := Tx(1, Wrote)]);
    var b := half.(holder := Some(11), txs := map[11 := Tx(1, Locked)]);
    var c := b.(txs := map[11 := Tx(1, CountedAssets(false))]);
    assert 1 in Undone(half) && Next(half, Write(11, 1)) == a && Next(a, Lock(11)) == b;
    assert Seen(b, 11, AssetItem) == {} && Next(b, CountAssets(11)) == c;
    assert Seen(c, 11, CleanupItem) == {} && Next(c, CountCleanups(11)) == decided;
    Then(c, CountCleanups(11), [], true);
    Then(b, CountAssets(11), [CountCleanups(11)], true);
    Then(a, Lock(11), [CountAssets(11), CountCleanups(11)], true);
    Then(half, Write(11, 1), [Lock(11), CountAssets(11), CountCleanups(11)], true);
  }
}
