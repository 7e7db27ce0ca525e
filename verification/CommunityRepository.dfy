/** The review transactions row by row: the revision row, one row per image, the
    post row, and everything put back when a later statement refuses. */
module CommunityRepository {
  import opened Base
  import opened Media
  import opened PostReview

  /** The images frozen so far, followed by what freezing the rest gives. */
  ghost predicate FrozenSoFar(prefix: seq<Link>, rest: Result<seq<Link>, Error>, whole: Result<seq<Link>, Error>) {
    match rest
    case Ok(links) => whole.Ok? && whole.value == prefix + links
    case Err(error) => whole == Err(error)
  }

  class Repository {
    var active: set<Id>
    var gone: set<Id>
    var profiles: set<Id>
    var diaries: set<(Id, Id)>
    var files: MediaDb
    var posts: map<Id, Post>

    function View(): Db
      reads this
    {
      Db(active, gone, profiles, diaries, files, posts)
    }

    constructor ()
      ensures View() == Db({}, {}, {}, {}, MediaDb(map[], map[], map[], {}), map[])
    {
      active, gone, profiles, diaries, files, posts := {}, {}, {}, {}, MediaDb(map[], map[], map[], {}), map[];
    }

    ghost predicate Committed(before: Db, result: Result<Db, Error>, e: Option<Error>)
      reads this
    {
      match result
      case Ok(db) => e.None? && View() == db
      case Err(error) => e == Some(error) && View() == before
    }

    /** The posts table in which `p`, the post `id` of `base`, has this revision row. */
    ghost predicate Has(base: map<Id, Post>, id: Id, p: Post, version: nat, r: Revision)
      reads this
    {
      posts == base[id := p.(revisions := p.revisions[version := r])]
    }

    /** INSERT or UPDATE of one revision row. */
    method WriteRevision(id: Id, version: nat, r: Revision, ghost base: map<Id, Post>, ghost p: Post,
                         ghost was: Revision)
      requires id in posts && ((posts == base && p == posts[id]) || Has(base, id, p, version, was))
      modifies this`posts
      ensures Has(base, id, p, version, r)
    {
      posts := posts[id := posts[id].(revisions := posts[id].revisions[version := r])];
      assert posts[id].revisions == p.revisions[version := r];
      assert posts == base[id := p.(revisions := p.revisions[version := r])];
    }

    /** Inserts the revision, then one row per image in order. */
    method CreatePostRevision(id: Id, version: nat, input: Input, at: Time) returns (e: Option<Error>)
      requires id in posts && version !in posts[id].revisions
      modifies this`posts
      ensures match NewRevision(input, at)
              case Ok(r) => e.None? && Has(old(posts), id, old(posts)[id], version, r)
              case Err(error) => e == Some(error)
    {
      ghost var base, p := posts, posts[id];
      var r := Revision(input.content, [], ReviewDraft, 0, None, None, None, at);
      WriteRevision(id, version, r, base, p, r);
      var ordinal := 0;
      while ordinal < |input.media|
        invariant 0 <= ordinal <= |input.media| && ordinal <= MAX_IMAGES
        invariant r == Revision(input.content, r.links, ReviewDraft, 0, None, None, None, at)
        invariant |r.links| == ordinal && forall k :: 0 <= k < ordinal ==> r.links[k] == Link(input.media[k], None)
        invariant Has(base, id, p, version, r)
      {
        if ordinal >= MAX_IMAGES { return Some(Unavailable); }
        ghost var was := r;
        r := r.(links := r.links + [Link(input.media[ordinal], None)]);
        WriteRevision(id, version, r, base, p, was);
        ordinal := ordinal + 1;
      }
      assert r.links == Unfrozen(input.media);
      e := None;
    }

    /** Copies the current derivation of each image into its row. */
    method FreezeRevisionMedia(owner: Id, id: Id, version: nat) returns (e: Option<Error>)
      requires id in posts && version in posts[id].revisions
      modifies this`posts
      ensures match Freeze(files, owner, old(posts)[id].revisions[version].links)
              case Ok(frozen) =>
                e.None? && Has(old(posts), id, old(posts)[id], version,
                               old(posts)[id].revisions[version].(links := frozen))
              case Err(error) => e == Some(error)
    {
      ghost var base, p := posts, posts[id];
      var stored := posts[id].revisions[version];
      var r := stored;
      WriteRevision(id, version, r, base, p, r);
      var i := 0;
      assert r.links[0..] == stored.links && r.links[..0] == [];
      while i < |r.links|
        invariant 0 <= i <= |r.links| && r == stored.(links := r.links) && Has(base, id, p, version, r)
        invariant FrozenSoFar(r.links[..i], Freeze(files, owner, r.links[i..]), Freeze(files, owner, stored.links))
      {
        var frozen := Freezable(files, owner, r.links[i].media);
        if frozen.None? { return Some(PostConflict); }
        ghost var was := r;
        r := r.(links := r.links[i := Link(r.links[i].media, frozen)]);
        WriteRevision(id, version, r, base, p, was);
        assert was.links[i..] == [was.links[i]] + r.links[i + 1..];
        assert r.links[..i + 1] == was.links[..i] + [r.links[i]];
        i := i + 1;
      }
      assert r.links[i..] == [] && r.links[..i] + [] == r.links;
      e := None;
    }

    method UpdatePost(owner: Id, id: Id, expected: nat, input: Input, at: Time) returns (e: Option<Error>)
      modifies this
      ensures Committed(old(View()), PostReview.UpdatePost(old(View()), owner, id, expected, input, at), e)
    {
      var before := posts;
      if id !in posts || posts[id].owner != owner { return Some(NotFound); }
      var p := posts[id];
      if p.revision != expected || p.pending.Some? || Closed(p) { return Some(PostConflict); }
      var valid := ValidateReferences(View(), owner, input);
      if valid.Err? { return Some(valid.error); }
      var version := NextVersion(p);
      e := CreatePostRevision(id, version, input, at);
      if e.None? {
        var state := if p.published.Some? then PostPublished else PostDraft;
        posts := posts[id := posts[id].(state := state, revision := p.revision + 1, draft := Some(version),
                                        diary := input.diary, updatedAt := at, withdrawnAt := None)];
        if !Loadable(posts[id]) { e := Some(NotFound); }
      }
      if e.Some? { posts := before; }
    }

    method SubmitPost(owner: Id, id: Id, expected: nat, at: Time) returns (e: Option<Error>)
      modifies this
      ensures Committed(old(View()), PostReview.SubmitPost(old(View()), owner, id, expected, at), e)
    {
      var before := posts;
      if id !in posts || posts[id].owner != owner { return Some(NotFound); }
      var p := posts[id];
      if p.revision != expected || p.draft.None? || p.pending.Some? || Closed(p) { return Some(PostConflict); }
      if owner !in profiles { return Some(Forbidden); }
      var version := p.draft.value;
      if version !in p.revisions { return Some(NotFound); }
      e := FreezeRevisionMedia(owner, id, version);
      if e.None? {
        var round := p.round + 1;
        var r := posts[id].revisions[version];
        if r.state.ReviewDraft? || r.state.ReviewRejected? {
          var submitted := r.(state := ReviewPending, round := round, reason := None, submittedAt := Some(at),
                              reviewedAt := None);
          WriteRevision(id, version, submitted, before, p, r);
        }
        var state := if p.published.Some? then PostPublished else PostPending;
        posts := posts[id := posts[id].(state := state, revision := p.revision + 1, draft := None,
                                        pending := Some(version), round := round, updatedAt := at)];
        if !Loadable(posts[id]) { e := Some(NotFound); }
      }
      if e.Some? { posts := before; }
    }

    method WithdrawPost(owner: Id, id: Id, expected: nat, at: Time) returns (e: Option<Error>)
      modifies this
      ensures Committed(old(View()), PostReview.WithdrawPost(old(View()), owner, id, expected, at), e)
    {
      var before := posts;
      if id !in posts || posts[id].owner != owner { return Some(NotFound); }
      var p := posts[id];
      if p.revision != expected || Closed(p) || (p.pending.None? && p.published.None?) { return Some(PostConflict); }
      var source := FirstOf(p.pending, p.draft, p.published);
      if p.pending.Some? && p.pending.value in p.revisions && p.revisions[p.pending.value].state.ReviewPending? {
        var cancelled := CancelRevision(p.revisions[p.pending.value], at);
        WriteRevision(id, p.pending.value, cancelled, posts, p, cancelled);
      }
      assert posts[id].revisions == CancelPending(p, at);
      if source !in p.revisions {
        e := Some(NotFound);
      } else {
        var version := NextVersion(p);
        var content := p.revisions[source];
        e := CreatePostRevision(id, version, Input(content.content, p.diary, MediaOfLinks(content.links)), at);
        if e.None? {
          posts := posts[id := posts[id].(state := PostWithdrawn, revision := p.revision + 1, draft := Some(version),
                                          pending := None, published := None, publishedAt := None,
                                          withdrawnAt := Some(at), updatedAt := at)];
          if !Loadable(posts[id]) { e := Some(NotFound); }
        }
      }
      if e.Some? { posts := before; }
    }

    method DecidePost(actor: Id, id: Id, version: nat, expected: nat, round: nat, d: Decision, reason: Id, at: Time)
      returns (e: Option<Error>)
      modifies this
      ensures Committed(old(View()),
                        PostReview.DecidePost(old(View()), actor, id, version, expected, round, d, reason, at), e)
    {
      var before := posts;
      if id !in posts || version !in posts[id].revisions { return Some(NotFound); }
      var p, r := posts[id], posts[id].revisions[version];
      if r.reviewedAt.Some? {
        if !Replayed(r, d, reason) { return Some(PostConflict); }
        return if Loadable(p) then None else Some(NotFound);
      }
      if p.revision != expected || p.pending != Some(version) || p.round != round || !r.state.ReviewPending?
        || r.round != round {
        return Some(PostConflict);
      }
      var decided := r.(state := Outcome(d), reason := Some(reason), reviewedAt := Some(at));
      WriteRevision(id, version, decided, posts, p, decided);
      var row := posts[id].(revision := p.revision + 1, pending := None, updatedAt := at);
      if d.Approve? {
        row := row.(state := PostPublished, published := Some(version), publishedAt := Some(at), withdrawnAt := None);
      } else {
        row := row.(draft := Some(version), state := if p.published.None? then PostDraft else PostPublished);
      }
      posts := posts[id := row.(actions := p.actions + [PostReview.Decided(actor, version, d, reason)])];
      e := if Loadable(posts[id]) then None else Some(NotFound);
      if e.Some? { posts := before; }
    }
  }
}
