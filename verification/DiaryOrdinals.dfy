/** Unlinking a deleted asset from the diary entries that show it: the link row
    goes, and the remaining rows are renumbered one UPDATE at a time. */
module DiaryOrdinals {
  import opened Base

  /** `links` is keyed by (entry, ordinal), the primary key of the link table. */
  datatype Entry = Entry(body: Option<Id>, links: map<nat, Id>, revision: nat, updatedAt: Time)

  predicate Rising(q: seq<nat>) { forall a, b :: 0 <= a < b < |q| ==> q[a] < q[b] }

  /** All ordinals of an entry, in order. */
  ghost predicate Listing(ks: seq<nat>, links: map<nat, Id>) { Rising(ks) && forall x :: x in ks <==> x in links }

  /** The images of an entry in the order of their ordinals. */
  function Ordered(links: map<nat, Id>): (s: seq<Id>)
    ensures |s| == |links|
  {
    var ks := Ascending(links.Keys);
    seq(|ks|, i requires 0 <= i < |ks| => assert ks[i] in ks; links[ks[i]])
  }

  function Numbered(s: seq<Id>): map<nat, Id> { map i | 0 <= i < |s| :: s[i] }

  function WithoutMedia(links: map<nat, Id>, media: Id): map<nat, Id> {
    map k | k in links && links[k] != media :: links[k]
  }

  /** What unlinking leaves of one entry, or the refusal to leave it empty. */
  function Unlink(e: Entry, media: Id, at: Time): Result<Entry, Error> {
    if media !in e.links.Values then Ok(e)
    else if e.body.None? && |e.links| <= 1 then Err(MediaConflict)
    else
      var rest := WithoutMedia(e.links, media);
      Ok(e.(links := Numbered(Ordered(rest)), revision := e.revision + 1, updatedAt := Max(at, e.updatedAt)))
  }

  predicate EntryOk(e: Entry) {
    && (e.body.Some? || e.links != map[])
    && (forall j, k :: j in e.links && k in e.links && e.links[j] == e.links[k] ==> j == k)
  }

  // -------------------------------------------------------------------- lemmas

  /** The new ordinal of a row is the number of remaining rows before it. */
  function NewOrdinal(links: map<nat, Id>, k: nat): nat { |set j | j in links && j < k| }

  lemma {:induction false} RisingSize(q: seq<nat>, s: set<nat>)
    requires Rising(q) && forall x :: x in s <==> x in q
    ensures |s| == |q|
    decreases |q|
  {
    if q == [] {
      assert s == {};
    } else {
      var n := |q| - 1;
      assert q == q[..n] + [q[n]];
      RisingSize(q[..n], s - {q[n]});
    }
  }

  lemma PositionCounts(q: seq<nat>, i: nat, below: set<nat>)
    requires i < |q| && Rising(q) && forall j :: j in below <==> j in q && j < q[i]
    ensures |below| == i
  {
    forall j | j in below ensures j in q[..i] {
      var p :| 0 <= p < |q| && q[p] == j;
    }
    RisingSize(q[..i], below);
  }

  /** Renumbering closes the gaps and keeps the order: the row that was at `k` is
      afterwards at the number of rows before it, and every position is taken. */
  lemma RenumberedAt(links: map<nat, Id>, k: nat)
    requires k in links
    ensures NewOrdinal(links, k) < |links|
    ensures Numbered(Ordered(links))[NewOrdinal(links, k)] == links[k]
  {
    var ks := Ascending(links.Keys);
    assert k in ks;
    var i :| 0 <= i < |ks| && ks[i] == k;
    PositionCounts(ks, i, set j | j in links && j < k);
  }

  lemma OrderIsKept(links: map<nat, Id>, j: nat, k: nat)
    requires j in links && k in links && j < k
    ensures NewOrdinal(links, j) < NewOrdinal(links, k)
  {
    var a, b := set x | x in links && x < j, set x | x in links && x < k;
    assert a + {j} <= b;
    assert |a + {j}| <= |b| by { SubsetCount(a + {j}, b); }
  }

  lemma {:induction false} SubsetCount(a: set<nat>, b: set<nat>)
    requires a <= b
    ensures |a| <= |b|
    decreases |a|
  {
    if a != {} {
      var x :| x in a;
      SubsetCount(a - {x}, b - {x});
    }
  }

  /** An entry that may lose the asset keeps a body or an image, keeps its other
      images in their order at 0, 1, ..., and no longer shows the asset. */
  lemma UnlinkedIsOk(e: Entry, media: Id, at: Time)
    requires EntryOk(e) && Unlink(e, media, at).Ok?
    ensures var n := Unlink(e, media, at).value; EntryOk(n) && media !in n.links.Values && n.body == e.body
  {
    if media in e.links.Values {
      var rest := WithoutMedia(e.links, media);
      var gone :| gone in e.links && e.links[gone] == media;
      assert rest.Keys == e.links.Keys - {gone};
      OrderedDistinct(rest);
      NumberedKeeps(Ordered(rest));
    }
  }

  lemma OrderedDistinct(links: map<nat, Id>)
    requires forall j, k :: j in links && k in links && links[j] == links[k] ==> j == k
    ensures var s := Ordered(links);
            && (forall i :: 0 <= i < |s| ==> s[i] in links.Values)
            && (forall i, j :: 0 <= i < |s| && 0 <= j < |s| && s[i] == s[j] ==> i == j)
  {
    var ks, s := Ascending(links.Keys), Ordered(links);
    forall i {:trigger ks[i]} | 0 <= i < |ks| ensures ks[i] in links && s[i] == links[ks[i]] { assert ks[i] in ks; }
    forall i, j | 0 <= i < |s| && 0 <= j < |s| && s[i] == s[j] ensures i == j {
      assert ks[i] == ks[j];
    }
    forall i | 0 <= i < |s| ensures s[i] in links.Values { assert ks[i] in links; }
  }

  lemma NumberedKeeps(s: seq<Id>)
    requires forall i, j :: 0 <= i < |s| && 0 <= j < |s| && s[i] == s[j] ==> i == j
    ensures var n := Numbered(s);
            && (forall x :: x in n.Values <==> x in s) && (s != [] ==> 0 in n)
            && (forall j, k :: j in n && k in n && n[j] == n[k] ==> j == k)
  {
    var n := Numbered(s);
    forall x | x in s ensures x in n.Values {
      var i :| 0 <= i < |s| && s[i] == x;
      assert i in n;
    }
  }

  // --------------------------------------------------------------------- tables

  class Diaries {
    var entries: map<Id, Entry>

    constructor ()
      ensures entries == map[]
    {
      entries := map[];
    }

    ghost predicate Valid()
      reads this
    {
      forall id :: id in entries ==> EntryOk(entries[id])
    }

    /** The tables of `base`, but for the links of one entry. */
    ghost predicate Relinked(base: map<Id, Entry>, id: Id, links: map<nat, Id>)
      requires id in base
      reads this
    {
      entries == base[id := base[id].(links := links)]
    }

    /** UPDATE ... SET ordinal = to WHERE ordinal = from: the primary key allows it
        only while `to` is free. */
    method MoveLink(id: Id, from: nat, to: nat, ghost base: map<Id, Entry>, ghost links: map<nat, Id>)
      requires id in base && Relinked(base, id, links) && from in links && to !in links
      modifies this
      ensures Relinked(base, id, (links - {from})[to := links[from]])
    {
      var e := entries[id];
      entries := entries[id := e.(links := (e.links - {from})[to := e.links[from]])];
    }

    /** SELECT ... ORDER BY ordinal ASC. */
    method ListOrdinals(links: map<nat, Id>) returns (ks: seq<nat>)
      ensures Listing(ks, links) && |ks| == |Ordered(links)|
      ensures forall i {:trigger ks[i]} :: 0 <= i < |ks| ==> ks[i] in links && Ordered(links)[i] == links[ks[i]]
    {
      ks := Ascending(links.Keys);
    }

    /** Renumbers the links of one entry in place. No update ever meets an ordinal
        that is taken. */
    method Compact(id: Id)
      requires id in entries
      modifies this
      ensures Relinked(old(entries), id, Numbered(Ordered(old(entries)[id].links)))
    {
      ghost var base, rest := entries, entries[id].links;
      ghost var links := rest;
      var ks := ListOrdinals(entries[id].links);
      var i := 0;
      assert base == base[id := base[id].(links := links)];
      StartCompacted(rest, ks);
      while i < |ks|
        invariant 0 <= i <= |ks| && Relinked(base, id, links) && Compacted(links, rest, ks, i)
      {
        NextIsFree(links, rest, ks, i);
        ghost var before := links;
        if ks[i] != i {
          MoveLink(id, ks[i], i, base, links);
          links := (links - {ks[i]})[i := links[ks[i]]];
        }
        StepCompacted(before, links, rest, ks, i);
        i := i + 1;
      }
      EndCompacted(links, rest, ks, Ordered(rest));
    }

    /** Removes one asset from one entry: the link row, the renumbering, the entry. */
    method UnlinkEntry(id: Id, media: Id, at: Time) returns (e: Option<Error>)
      requires id in entries && media in entries[id].links.Values
      modifies this
      ensures match Unlink(old(entries)[id], media, at)
              case Ok(n) => e.None? && entries == old(entries)[id := n]
              case Err(error) => e == Some(error) && entries == old(entries)
    {
      var entry := entries[id];
      if entry.body.None? && |entry.links| <= 1 { return Some(MediaConflict); }
      ghost var base := entries;
      ghost var n := Unlink(entry, media, at).value;
      entries := entries[id := entry.(links := WithoutMedia(entry.links, media))];
      Compact(id);
      entries := entries[id := entries[id].(revision := entry.revision + 1, updatedAt := Max(at, entry.updatedAt))];
      assert entries[id] == n && entries == base[id := n];
      e := None;
    }

    /** The entries that show the asset. */
    method ListEntries(media: Id) returns (ids: seq<Id>)
      ensures forall id :: id in ids <==> id in entries && media in entries[id].links.Values
      ensures forall i, j :: 0 <= i < j < |ids| ==> ids[i] != ids[j]
    {
      ids := Ascending(set id | id in entries && media in entries[id].links.Values);
    }

    /** Unlinks the asset from every entry that shows it, or from none. */
    method UnlinkMedia(media: Id, at: Time) returns (e: Option<Error>)
      requires Valid()
      modifies this
      ensures Valid() && entries.Keys == old(entries).Keys
      ensures e.Some? ==> e == Some(MediaConflict) && entries == old(entries)
      ensures e.None? ==> forall id :: id in entries ==> Ok(entries[id]) == Unlink(old(entries)[id], media, at)
      ensures e.None? <==> forall id :: id in old(entries) ==> Unlink(old(entries)[id], media, at).Ok?
    {
      var before := entries;
      var ids := ListEntries(media);
      var i := 0;
      while i < |ids|
        invariant 0 <= i <= |ids| && entries.Keys == before.Keys
        invariant forall id :: id in before && id in ids[..i] ==> Unlink(before[id], media, at) == Ok(entries[id])
        invariant forall id :: id in before && id !in ids[..i] ==> entries[id] == before[id]
      {
        assert ids[i] in ids && ids[i] !in ids[..i] && ids[..i + 1] == ids[..i] + [ids[i]];
        e := UnlinkEntry(ids[i], media, at);
        if e.Some? {
          entries := before;
          return;
        }
        i := i + 1;
      }
      assert ids[..i] == ids;
      AllUnlinked(before, entries, media, at);
      e := None;
    }
  }

  lemma AllUnlinked(before: map<Id, Entry>, after: map<Id, Entry>, media: Id, at: Time)
    requires after.Keys == before.Keys
    requires forall id :: id in before ==>
               EntryOk(before[id])
               && (if media in before[id].links.Values then Unlink(before[id], media, at) == Ok(after[id])
                   else after[id] == before[id])
    ensures forall id :: id in after ==> Ok(after[id]) == Unlink(before[id], media, at) && EntryOk(after[id])
  {
    forall id | id in after ensures Ok(after[id]) == Unlink(before[id], media, at) && EntryOk(after[id]) {
      UnlinkedIsOk(before[id], media, at);
    }
  }

  /** A row that has not been reached yet. */
  predicate Ahead(ks: seq<nat>, rest: map<nat, Id>, i: nat, k: nat) { i < |ks| && ks[i] <= k && k in rest }

  /** The first `i` rows are at 0, 1, ..., and the others are where they were. */
  ghost predicate Compacted(links: map<nat, Id>, rest: map<nat, Id>, ks: seq<nat>, i: nat) {
    && i <= |ks|
    && (forall k: nat :: k in links <==> k < i || Ahead(ks, rest, i, k))
    && (forall j {:trigger ks[j]} :: 0 <= j < i ==> ks[j] in rest && links[j] == rest[ks[j]])
    && (forall k: nat {:trigger Ahead(ks, rest, i, k)} :: Ahead(ks, rest, i, k) ==> links[k] == rest[k])
  }

  lemma StartCompacted(rest: map<nat, Id>, ks: seq<nat>)
    requires Listing(ks, rest)
    ensures Compacted(rest, rest, ks, 0)
  {
    forall k | k in rest ensures Ahead(ks, rest, 0, k) {
      var j :| 0 <= j < |ks| && ks[j] == k;
    }
  }

  /** In a rising sequence the i-th element is at least i. */
  lemma {:induction false} AtLeast(ks: seq<nat>, i: nat)
    requires i < |ks| && Rising(ks)
    ensures i <= ks[i]
    decreases i
  {
    if i > 0 { AtLeast(ks, i - 1); }
  }

  /** The position the next row moves to is free, or the row is there already. */
  lemma NextIsFree(links: map<nat, Id>, rest: map<nat, Id>, ks: seq<nat>, i: nat)
    requires Listing(ks, rest) && Compacted(links, rest, ks, i) && i < |ks|
    ensures ks[i] in links && links[ks[i]] == rest[ks[i]] && i <= ks[i] && (ks[i] != i ==> i !in links)
  {
    AtLeast(ks, i);
    assert ks[i] in ks;
    assert Ahead(ks, rest, i, ks[i]);
  }

  lemma AheadNext(rest: map<nat, Id>, ks: seq<nat>, i: nat, k: nat)
    requires Listing(ks, rest) && i < |ks|
    ensures Ahead(ks, rest, i + 1, k) <==> Ahead(ks, rest, i, k) && k != ks[i]
  {
    if Ahead(ks, rest, i, k) && k != ks[i] {
      var j :| 0 <= j < |ks| && ks[j] == k;
      assert j > i;
    }
  }

  lemma StepAt(a: map<nat, Id>, b: map<nat, Id>, rest: map<nat, Id>, ks: seq<nat>, i: nat, k: nat)
    requires i < |ks| && ks[i] in a && i <= ks[i] && (ks[i] != i ==> i !in a)
    requires b == if ks[i] == i then a else (a - {ks[i]})[i := a[ks[i]]]
    requires (k in a <==> k < i || Ahead(ks, rest, i, k)) && (Ahead(ks, rest, i, k) ==> a[k] == rest[k])
    requires Ahead(ks, rest, i + 1, k) <==> Ahead(ks, rest, i, k) && k != ks[i]
    ensures k in b <==> k < i + 1 || Ahead(ks, rest, i + 1, k)
    ensures Ahead(ks, rest, i + 1, k) ==> b[k] == rest[k]
  {
  }

  lemma StepCompacted(a: map<nat, Id>, b: map<nat, Id>, rest: map<nat, Id>, ks: seq<nat>, i: nat)
    requires Listing(ks, rest) && Compacted(a, rest, ks, i) && i < |ks| && ks[i] in a
    requires b == if ks[i] == i then a else (a - {ks[i]})[i := a[ks[i]]]
    ensures Compacted(b, rest, ks, i + 1)
  {
    NextIsFree(a, rest, ks, i);
    forall k: nat {:trigger Ahead(ks, rest, i + 1, k)}
      ensures k in b <==> k < i + 1 || Ahead(ks, rest, i + 1, k)
      ensures Ahead(ks, rest, i + 1, k) ==> b[k] == rest[k]
    {
      AheadNext(rest, ks, i, k);
      StepAt(a, b, rest, ks, i, k);
    }
  }

  lemma EndCompacted(links: map<nat, Id>, rest: map<nat, Id>, ks: seq<nat>, s: seq<Id>)
    requires Listing(ks, rest) && Compacted(links, rest, ks, |ks|)
    requires |s| == |ks| && forall i {:trigger ks[i]} :: 0 <= i < |ks| ==> ks[i] in rest && s[i] == rest[ks[i]]
    ensures links == Numbered(s)
  {
    forall i | 0 <= i < |s| ensures i in links && links[i] == s[i] { assert s[i] == rest[ks[i]]; }
    forall k: nat | k in links ensures k < |s| { assert !Ahead(ks, rest, |ks|, k); }
  }
}
