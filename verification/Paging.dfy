/** Keyset paging: each page is fetched with one row more than it shows, and names
    its last row as the cursor of the next. Proved once for any strict total order
    and instantiated for the orders in use. */
module Paging {
  import opened Base

  ghost predicate StrictTotal<T(!new)>(less: (T, T) -> bool) {
    && (forall x :: !less(x, x))
    && (forall x, y, z :: less(x, y) && less(y, z) ==> less(x, z))
    && (forall x, y :: x == y || less(x, y) || less(y, x))
  }

  ghost predicate Sorted<T>(all: seq<T>, less: (T, T) -> bool) {
    forall i, j :: 0 <= i < j < |all| ==> less(all[i], all[j])
  }

  /** SELECT ... WHERE row after cursor ORDER BY the same order. */
  function Select<T(==)>(all: seq<T>, less: (T, T) -> bool, cursor: Option<T>): seq<T> {
    if all == [] then []
    else
      var rest := Select(all[1..], less, cursor);
      if cursor.None? || less(cursor.value, all[0]) then [all[0]] + rest else rest
  }

  datatype Page<T> = Page(items: seq<T>, next: Option<T>)

  /** What both page builders compute from up to `limit + 1` records. */
  function PageOf<T>(records: seq<T>, limit: nat): Page<T>
    requires limit >= 1 && |records| <= limit + 1
  {
    if |records| > limit then Page(records[..limit], Some(records[limit - 1])) else Page(records, None)
  }

  function Limited<T>(records: seq<T>, n: nat): seq<T> { if |records| > n then records[..n] else records }

  function Fetch<T(==)>(all: seq<T>, less: (T, T) -> bool, cursor: Option<T>, limit: nat): Page<T>
    requires limit >= 1
  {
    PageOf(Limited(Select(all, less, cursor), limit + 1), limit)
  }

  /** The builder that cuts the extra record off before it copies the page. */
  method BuildByCutting<T>(fetched: seq<T>, limit: nat) returns (page: Page<T>)
    requires limit >= 1 && |fetched| <= limit + 1
    ensures page == PageOf(fetched, limit)
  {
    var records := fetched;
    var hasMore := |records| > limit;
    if hasMore { records := records[..limit]; }
    var items := [];
    var i := 0;
    while i < |records|
      invariant 0 <= i <= |records| && items == records[..i]
    {
      items := items + [records[i]];
      i := i + 1;
    }
    page := Page(items, if hasMore && |items| > 0 then Some(items[|items| - 1]) else None);
  }

  /** The builder that stops at the extra record and takes its predecessor. */
  method BuildByStopping<T>(records: seq<T>, limit: nat) returns (page: Page<T>)
    requires limit >= 1 && |records| <= limit + 1
    ensures page == PageOf(records, limit)
  {
    var items, next := [], None;
    var index := 0;
    while index < |records|
      invariant 0 <= index <= |records| && index <= limit
      invariant items == records[..index] && next == None
    {
      if index == limit {
        next := Some(records[index - 1]);
        break;
      }
      items := items + [records[index]];
      index := index + 1;
    }
    page := Page(items, next);
  }

  // ------------------------------------------------------------------- the walk

  /** The rows after the k-th row of a sorted table are the rest of it. */
  lemma {:induction false} SelectAfter<T(!new)>(all: seq<T>, less: (T, T) -> bool, k: nat)
    requires StrictTotal(less) && Sorted(all, less) && k < |all|
    ensures Select(all, less, Some(all[k])) == all[k + 1..]
    decreases |all|
  {
    var rest := all[1..];
    if k == 0 {
      SelectFrom(rest, less, all[0]);
    } else {
      assert less(all[0], all[k]);
      SelectAfter(rest, less, k - 1);
      assert rest[k - 1] == all[k] && rest[k..] == all[k + 1..];
    }
  }

  lemma {:induction false} SelectFrom<T(!new)>(all: seq<T>, less: (T, T) -> bool, cursor: T)
    requires forall x :: x in all ==> less(cursor, x)
    ensures Select(all, less, Some(cursor)) == all
    decreases |all|
  {
    if all != [] {
      assert all == [all[0]] + all[1..];
      SelectFrom(all[1..], less, cursor);
    }
  }

  lemma {:induction false} SelectEverything<T(!new)>(all: seq<T>, less: (T, T) -> bool)
    ensures Select(all, less, None) == all
    decreases |all|
  {
    if all != [] { SelectEverything(all[1..], less); }
  }

  /** The page that starts after the first `done` rows. */
  lemma FetchFrom<T(!new)>(all: seq<T>, less: (T, T) -> bool, done: nat, limit: nat)
    requires StrictTotal(less) && Sorted(all, less) && limit >= 1 && done <= |all|
    ensures var page := Fetch(all, less, if done == 0 then None else Some(all[done - 1]), limit);
            if done + limit < |all| then page == Page(all[done..done + limit], Some(all[done + limit - 1]))
            else page == Page(all[done..], None)
  {
    if done == 0 {
      SelectEverything(all, less);
      assert all[0..] == all;
    } else {
      SelectAfter(all, less, done - 1);
    }
    var rest := all[done..];
    if |rest| > limit {
      assert Limited(rest, limit + 1)[..limit] == all[done..done + limit];
      assert Limited(rest, limit + 1)[limit - 1] == all[done + limit - 1];
    }
  }

  /** Following the cursor from the first page visits every row exactly once, in
      order, and ends after as many pages as the rows fill. */
  method Follow<T(==, !new)>(all: seq<T>, less: (T, T) -> bool, limit: nat) returns (seen: seq<T>, pages: nat)
    requires StrictTotal(less) && Sorted(all, less) && limit >= 1
    ensures seen == all
    ensures pages >= 1 && limit * (pages - 1) <= |all| <= limit * pages && (pages > 1 ==> limit * (pages - 1) < |all|)
  {
    seen, pages := [], 0;
    var cursor: Option<T> := None;
    var more := true;
    while more
      invariant |seen| <= |all| && seen == all[..|seen|]
      invariant more ==> cursor == (if |seen| == 0 then None else Some(all[|seen| - 1]))
      invariant more ==> |seen| == limit * pages && (pages > 0 ==> |seen| < |all|)
      invariant !more ==> seen == all && pages >= 1 && limit * (pages - 1) <= |all| <= limit * pages
      invariant !more && pages > 1 ==> limit * (pages - 1) < |all|
      decreases more, |all| - |seen|
    {
      FetchFrom(all, less, |seen|, limit);
      var page := Fetch(all, less, cursor, limit);
      assert seen + page.items == all[..|seen| + |page.items|];
      OneMore(limit, pages);
      seen := seen + page.items;
      pages := pages + 1;
      cursor := page.next;
      more := cursor.Some?;
    }
  }

  lemma OneMore(limit: nat, pages: nat)
    ensures limit * (pages + 1) == limit * pages + limit
  {
  }

  // ------------------------------------------------------------------ instances

  /** Newest first, then by ascending identifier. */
  datatype Dated = Dated(created: Time, id: Id)

  /** ORDER BY created_at DESC, id ASC. */
  predicate NewestFirst(a: Dated, b: Dated) { a.created > b.created || (a.created == b.created && a.id < b.id) }

  /** WHERE created_at < ? OR (created_at = ? AND id > ?). */
  predicate OlderThan(cursor: Dated, row: Dated) {
    row.created < cursor.created || (row.created == cursor.created && row.id > cursor.id)
  }

  /** ORDER BY published_at DESC, id DESC; WHERE (published_at, id) < (?, ?). */
  predicate LatestFirst(a: Dated, b: Dated) { a.created > b.created || (a.created == b.created && a.id > b.id) }

  predicate TupleBelow(cursor: Dated, row: Dated) {
    row.created < cursor.created || (row.created == cursor.created && row.id < cursor.id)
  }

  datatype Entry = Entry(date: nat, created: Time, id: Id)

  /** ORDER BY local_date DESC, created_at DESC, id DESC. */
  predicate DiaryOrder(a: Entry, b: Entry) {
    if a.date != b.date then a.date > b.date else if a.created != b.created then a.created > b.created else a.id > b.id
  }

  predicate DiaryCursor(cursor: Entry, row: Entry) {
    || row.date < cursor.date
    || (row.date == cursor.date && row.created < cursor.created)
    || (row.date == cursor.date && row.created == cursor.created && row.id < cursor.id)
  }

  /** Each cursor condition is its ORDER BY clause, and each is a strict total order. */
  lemma OrdersAreTotal()
    ensures StrictTotal(NewestFirst) && StrictTotal(LatestFirst) && StrictTotal(DiaryOrder)
    ensures forall a, b :: NewestFirst(a, b) == OlderThan(a, b)
    ensures forall a, b :: LatestFirst(a, b) == TupleBelow(a, b)
    ensures forall a, b :: DiaryOrder(a, b) == DiaryCursor(a, b)
  {
  }

  /** So paging through generation tasks, public posts and diary entries shows each
      row once, in order, for every table and every page size. */
  method FollowEach(tasks: seq<Dated>, posts: seq<Dated>, entries: seq<Entry>, limit: nat)
    returns (t: seq<Dated>, p: seq<Dated>, e: seq<Entry>)
    requires limit >= 1 && Sorted(tasks, NewestFirst) && Sorted(posts, LatestFirst) && Sorted(entries, DiaryOrder)
    ensures t == tasks && p == posts && e == entries
  {
    OrdersAreTotal();
    var n;
    t, n := Follow(tasks, NewestFirst, limit);
    p, n := Follow(posts, LatestFirst, limit);
    e, n := Follow(entries, DiaryOrder, limit);
  }
}
