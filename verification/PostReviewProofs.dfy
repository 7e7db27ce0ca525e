/** The invariant of the review workflow: where a post's pointers may point, that
    images shown to moderators and readers exist, and how rounds add up. */
module PostReviewProofs {
  import opened Base
  import opened Media
  import opened PostReview

  // ----------------------------------------------------------------- invariant

  predicate Points(p: Post, v: Option<nat>, states: set<ReviewState>) {
    v.Some? ==> v.value in p.revisions && p.revisions[v.value].state in states
  }

  /** The state names exactly which pointers are set. */
  predicate StateAgrees(p: Post) {
    match p.state
    case PostDraft => p.draft.Some? && p.pending.None? && p.published.None?
    case PostPending => p.draft.None? && p.pending.Some? && p.published.None?
    case PostPublished => p.published.Some? && (p.pending.Some? ==> p.draft.None?)
    case PostWithdrawn => p.draft.Some? && p.pending.None? && p.published.None?
    case PostRemoved => p.published.Some? && p.pending.None?
    case PostDeleted => p.draft.None? && p.pending.None? && p.published.None?
  }

  predicate RevisionOk(p: Post, v: nat)
    requires v in p.revisions
  {
    var r := p.revisions[v];
    && v >= 1 && |r.links| <= MAX_IMAGES
    && (r.state.ReviewPending? <==> p.pending == Some(v))
    && (r.reviewedAt.Some? <==> r.state.ReviewApproved? || r.state.ReviewRejected? || r.state.ReviewCancelled?)
  }

  function DecisionCount(actions: seq<Action>): nat {
    if actions == [] then 0
    else DecisionCount(actions[..|actions| - 1]) + (if actions[|actions| - 1].Decided? then 1 else 0)
  }

  function CancelledVersions(p: Post): set<nat> {
    set v | v in p.revisions && p.revisions[v].state.ReviewCancelled?
  }

  /** Every review round ended in a recorded decision or a cancellation, or is the
      one that is pending. */
  predicate RoundsAddUp(p: Post) {
    p.round == DecisionCount(p.actions) + |CancelledVersions(p)| + (if p.pending.Some? then 1 else 0)
  }

  ghost predicate PostOk(p: Post) {
    StateAgrees(p) && (!p.state.PostDeleted? ==>
      && Points(p, p.draft, {ReviewDraft, ReviewRejected})
      && Points(p, p.pending, {ReviewPending}) && (p.pending.Some? ==> p.revisions[p.pending.value].round == p.round)
      && Points(p, p.published, {ReviewApproved})
      && (forall v :: v in p.revisions ==> RevisionOk(p, v))
      && RoundsAddUp(p))
  }

  /** Each image is frozen to a derivation of a ready asset of the owner. */
  predicate Backed(files: MediaDb, owner: Id, l: Link) {
    && l.frozen.Some? && l.media in files.media && files.media[l.media].owner == owner
       && files.media[l.media].status.Ready?
    && exists d :: d in files.media[l.media].derivations && d.key == l.frozen.value.key
                   && d.version == Some(l.frozen.value.version)
  }

  predicate AllBacked(files: MediaDb, owner: Id, links: seq<Link>) {
    forall l :: l in links ==> Backed(files, owner, l)
  }

  /** What moderators and readers may be shown. */
  predicate ShownBacked(files: MediaDb, p: Post) {
    !p.state.PostDeleted? ==>
      && (p.pending.Some? && p.pending.value in p.revisions ==>
            AllBacked(files, p.owner, p.revisions[p.pending.value].links))
      && (p.published.Some? && p.published.value in p.revisions ==>
            AllBacked(files, p.owner, p.revisions[p.published.value].links))
  }

  ghost predicate Inv(db: Db) {
    && MediaOk(db.files)
    && (forall id :: id in db.posts ==> PostOk(db.posts[id]) && ShownBacked(db.files, db.posts[id]))
    && (forall id :: id in db.posts ==> db.posts[id].owner !in db.gone)
  }

  // ------------------------------------------------------------------ one post

  lemma CountAppend(actions: seq<Action>, a: Action)
    ensures DecisionCount(actions + [a]) == DecisionCount(actions) + (if a.Decided? then 1 else 0)
  {
    assert (actions + [a])[..|actions|] == actions;
  }

  /** Every post that is not deleted can be read: its current and its published
      revision exist. */
  lemma PostIsLoadable(p: Post)
    requires PostOk(p) && !p.state.PostDeleted?
    ensures Loadable(p)
  {
  }

  lemma CreatedOk(owner: Id, input: Input, r: Revision, at: Time)
    requires NewRevision(input, at) == Ok(r)
    ensures PostOk(Post(owner, PostDraft, 1, Some(1), None, None, 0, input.diary, None, None, None, at, at, map[1 := r],
                        []))
  {
    var p := Post(owner, PostDraft, 1, Some(1), None, None, 0, input.diary, None, None, None, at, at, map[1 := r], []);
    assert CancelledVersions(p) == {};
  }

  lemma UpdatedOk(p: Post, input: Input, r: Revision, at: Time)
    requires PostOk(p) && !Closed(p) && p.pending.None? && NewRevision(input, at) == Ok(r)
    ensures PostOk(Updated(p, input, r, at))
  {
    var n := Updated(p, input, r, at);
    assert NextVersion(p) !in p.revisions;
    forall v | v in n.revisions ensures RevisionOk(n, v) {
      if v in p.revisions { assert RevisionOk(p, v); }
    }
    assert CancelledVersions(n) == CancelledVersions(p);
  }

  /** The unchecked review update always matches its one row. */
  lemma SubmitHitsItsRow(p: Post, links: seq<Link>, at: Time)
    requires PostOk(p) && !Closed(p) && p.draft.Some?
    ensures p.draft.value in p.revisions
    ensures var r := SubmitRevision(p.revisions[p.draft.value], links, p.round + 1, at);
            r.state.ReviewPending? && r.round == p.round + 1 && r.reviewedAt.None? && r.submittedAt == Some(at)
  {
  }

  lemma SubmittedOk(p: Post, links: seq<Link>, at: Time)
    requires PostOk(p) && !Closed(p) && p.draft.Some? && p.pending.None? && |links| <= MAX_IMAGES
    requires p.draft.value in p.revisions
    ensures PostOk(Submitted(p, links, at))
  {
    var n := Submitted(p, links, at);
    SubmitHitsItsRow(p, links, at);
    forall v | v in n.revisions ensures RevisionOk(n, v) { assert RevisionOk(p, v); }
    assert CancelledVersions(n) == CancelledVersions(p);
  }

  /** Cancelling ends the pending round, if there is one. */
  lemma CancelCounts(p: Post, at: Time)
    requires PostOk(p) && !Closed(p)
    ensures var c := p.(revisions := CancelPending(p, at));
            |CancelledVersions(c)| == |CancelledVersions(p)| + (if p.pending.Some? then 1 else 0)
    ensures p.pending.Some? ==> CancelPending(p, at)[p.pending.value].state.ReviewCancelled?
  {
    var c := p.(revisions := CancelPending(p, at));
    if p.pending.Some? {
      assert CancelledVersions(c) == CancelledVersions(p) + {p.pending.value};
    }
  }

  lemma WithdrawnOk(p: Post, at: Time)
    requires PostOk(p) && !Closed(p) && Withdrawn(p, at).Ok?
    ensures PostOk(Withdrawn(p, at).value)
  {
    var n := Withdrawn(p, at).value;
    var c := p.(revisions := CancelPending(p, at));
    CancelCounts(p, at);
    assert NextVersion(p) !in p.revisions;
    forall v | v in n.revisions ensures RevisionOk(n, v) {
      if v in p.revisions { assert RevisionOk(p, v); }
    }
    assert CancelledVersions(n) == CancelledVersions(c);
  }

  lemma DecidedOk(p: Post, actor: Id, v: nat, d: Decision, reason: Id, at: Time)
    requires PostOk(p) && !p.state.PostDeleted? && p.pending == Some(v) && v in p.revisions
    ensures PostOk(DecidedPost(p, actor, v, d, reason, at))
  {
    var n := DecidedPost(p, actor, v, d, reason, at);
    CountAppend(p.actions, PostReview.Decided(actor, v, d, reason));
    forall w | w in n.revisions ensures RevisionOk(n, w) { assert RevisionOk(p, w); }
    assert CancelledVersions(n) == CancelledVersions(p);
  }

  lemma RemovedOk(p: Post, actor: Id, reason: Id, at: Time)
    requires PostOk(p) && p.state.PostPublished?
    ensures PostOk(RemovedPost(p, actor, reason, at))
  {
    var n := RemovedPost(p, actor, reason, at);
    CountAppend(p.actions, PostReview.Removed(actor, reason));
    CancelCounts(p, at);
    forall v | v in n.revisions ensures RevisionOk(n, v) { assert RevisionOk(p, v); }
    assert CancelledVersions(n) == CancelledVersions(p.(revisions := CancelPending(p, at)));
  }

  /** Removing never moves a pending revision to the draft pointer: the branch that
      would do so requires a post without a published revision, which is refused
      before it. */
  lemma RemovalNeverRestoresDraft(db: Db, actor: Id, id: Id, expected: nat, reason: Id, at: Time)
    requires RemovePost(db, actor, id, expected, reason, at).Ok?
    ensures RemovePost(db, actor, id, expected, reason, at).value.posts[id].draft == db.posts[id].draft
  {
  }

  // -------------------------------------------------------------- shown images

  lemma {:induction false} FrozenIsBacked(files: MediaDb, owner: Id, links: seq<Link>)
    requires Freeze(files, owner, links).Ok?
    ensures var frozen := Freeze(files, owner, links).value;
            && AllBacked(files, owner, frozen) && MediaOfLinks(frozen) == MediaOfLinks(links) && |frozen| == |links|
    decreases |links|
  {
    if links != [] {
      FrozenIsBacked(files, owner, links[1..]);
      var a := files.media[links[0].media];
      assert a.derivations[|a.derivations| - 1] in a.derivations;
      var rest := Freeze(files, owner, links[1..]).value;
      var first := Link(links[0].media, Freezable(files, owner, links[0].media));
      assert Backed(files, owner, first);
      assert Freeze(files, owner, links).value == [first] + rest;
    }
  }

  /** A ready asset keeps its derivation while it stays ready. */
  lemma BackedKept(a: MediaDb, b: MediaDb, owner: Id, l: Link)
    requires Backed(a, owner, l) && l.media in b.media && AssetStep(a.media[l.media], b.media[l.media])
    requires !Gone(b.media[l.media].status)
    ensures Backed(b, owner, l)
  {
  }

  lemma ShownKept(a: MediaDb, b: MediaDb, p: Post)
    requires ShownBacked(a, p) && (forall m :: m in a.media ==> m in b.media && AssetStep(a.media[m], b.media[m]))
    requires forall v, l ::
             v in p.revisions && l in p.revisions[v].links && l.media in b.media && !p.state.PostDeleted? ==>
               l.media in a.media ==> Gone(b.media[l.media].status) ==> Gone(a.media[l.media].status)
    ensures ShownBacked(b, p)
  {
    forall v, l | v in p.revisions && l in p.revisions[v].links && Backed(a, p.owner, l) && !p.state.PostDeleted?
      ensures Backed(b, p.owner, l)
    {
      BackedKept(a, b, p.owner, l);
    }
  }

  lemma UnshownBacked(files: MediaDb, p: Post, n: Post)
    requires ShownBacked(files, p) && !p.state.PostDeleted? && n.owner == p.owner
    requires n.pending.Some? && n.pending.value in n.revisions ==>
               n.pending == p.pending && p.pending.value in p.revisions
               && n.revisions[n.pending.value].links == p.revisions[p.pending.value].links
    requires n.published.Some? && n.published.value in n.revisions ==>
               || (n.published == p.published && p.published.value in p.revisions
                   && n.revisions[n.published.value].links == p.revisions[p.published.value].links)
               || (n.published == p.pending && p.pending.value in p.revisions
                   && n.revisions[n.published.value].links == p.revisions[p.pending.value].links)
    ensures ShownBacked(files, n)
  {
  }

  // ----------------------------------------------------------------- every step

  lemma PutKeeps(db: Db, id: Id, p: Post)
    requires Inv(db) && PostOk(p) && ShownBacked(db.files, p) && p.owner !in db.gone
    ensures Inv(db.(posts := db.posts[id := p]))
  {
  }

  lemma CreateKeeps(db: Db, owner: Id, id: Id, input: Input, at: Time)
    requires Inv(db) && CreatePost(db, owner, id, input, at).Ok?
    ensures Inv(CreatePost(db, owner, id, input, at).value)
  {
    if id !in db.posts {
      var r := NewRevision(input, at).value;
      CreatedOk(owner, input, r, at);
      PutKeeps(db, id, CreatePost(db, owner, id, input, at).value.posts[id]);
    }
  }

  lemma UpdateKeeps(db: Db, owner: Id, id: Id, expected: nat, input: Input, at: Time)
    requires Inv(db) && UpdatePost(db, owner, id, expected, input, at).Ok?
    ensures Inv(UpdatePost(db, owner, id, expected, input, at).value)
  {
    var p, r := db.posts[id], NewRevision(input, at).value;
    UpdatedOk(p, input, r, at);
    assert NextVersion(p) !in p.revisions;
    UnshownBacked(db.files, p, Updated(p, input, r, at));
    PutKeeps(db, id, Updated(p, input, r, at));
  }

  lemma SubmitKeeps(db: Db, owner: Id, id: Id, expected: nat, at: Time)
    requires Inv(db) && SubmitPost(db, owner, id, expected, at).Ok?
    ensures Inv(SubmitPost(db, owner, id, expected, at).value)
  {
    var p := db.posts[id];
    var v := p.draft.value;
    FrozenIsBacked(db.files, owner, p.revisions[v].links);
    var links := Freeze(db.files, owner, p.revisions[v].links).value;
    assert RevisionOk(p, v);
    SubmittedOk(p, links, at);
    var n := Submitted(p, links, at);
    assert n.published.Some? ==> n.published.value != v;
    PutKeeps(db, id, n);
  }

  lemma WithdrawKeeps(db: Db, owner: Id, id: Id, expected: nat, at: Time)
    requires Inv(db) && WithdrawPost(db, owner, id, expected, at).Ok?
    ensures Inv(WithdrawPost(db, owner, id, expected, at).value)
  {
    WithdrawnOk(db.posts[id], at);
    PutKeeps(db, id, Withdrawn(db.posts[id], at).value);
  }

  lemma DecideKeeps(db: Db, actor: Id, id: Id, v: nat, expected: nat, round: nat, d: Decision, reason: Id, at: Time)
    requires Inv(db) && DecidePost(db, actor, id, v, expected, round, d, reason, at).Ok?
    ensures Inv(DecidePost(db, actor, id, v, expected, round, d, reason, at).value)
  {
    var p := db.posts[id];
    if p.revisions[v].reviewedAt.None? {
      DecidedOk(p, actor, v, d, reason, at);
      UnshownBacked(db.files, p, DecidedPost(p, actor, v, d, reason, at));
      PutKeeps(db, id, DecidedPost(p, actor, v, d, reason, at));
    }
  }

  lemma RemoveKeeps(db: Db, actor: Id, id: Id, expected: nat, reason: Id, at: Time)
    requires Inv(db) && RemovePost(db, actor, id, expected, reason, at).Ok?
    ensures Inv(RemovePost(db, actor, id, expected, reason, at).value)
  {
    var p := db.posts[id];
    RemovedOk(p, actor, reason, at);
    UnshownBacked(db.files, p, RemovedPost(p, actor, reason, at));
    PutKeeps(db, id, RemovedPost(p, actor, reason, at));
  }

  lemma DeleteKeeps(db: Db, owner: Id, id: Id, expected: nat, at: Time)
    requires Inv(db) && DeletePost(db, owner, id, expected, at).Ok?
    ensures Inv(DeletePost(db, owner, id, expected, at).value)
  {
  }

  lemma FilesKeep(db: Db, files: MediaDb)
    requires Inv(db) && MediaOk(files)
    requires forall m :: m in db.files.media ==> m in files.media && AssetStep(db.files.media[m], files.media[m])
    requires forall m :: m in db.files.media && Gone(files.media[m].status) && !Gone(db.files.media[m].status) ==>
               !Referenced(db, m) || files.media[m].status.Deleted?
    requires forall m :: m in db.files.media && files.media[m].status.Deleted? ==> Gone(db.files.media[m].status)
    ensures Inv(db.(files := files))
  {
    forall id | id in db.posts ensures ShownBacked(files, db.posts[id]) {
      var p := db.posts[id];
      forall v, l | v in p.revisions && l in p.revisions[v].links && l.media in files.media && !p.state.PostDeleted?
                    && l.media in db.files.media && Gone(files.media[l.media].status)
        ensures Gone(db.files.media[l.media].status)
      {
        assert LinksTo(p, l.media);
      }
      ShownKept(db.files, files, p);
    }
  }

  lemma WorkKeeps(db: Db, op: MediaOp)
    requires Inv(db) && OnMedia(db.files, op).Ok?
    ensures Inv(db.(files := OnMedia(db.files, op).value))
  {
    OnMediaKeeps(db.files, op);
    FilesKeep(db, OnMedia(db.files, op).value);
  }

  lemma UploadKeeps(db: Db, media: Id, owner: Id, category: Category, jpeg: bool, sha: Id, at: Time)
    requires Inv(db) && CreateMedia(db.files, media, owner, CommunityPublish, category, 0, jpeg, sha, at).Ok?
    ensures Inv(db.(files := CreateMedia(db.files, media, owner, CommunityPublish, category, 0, jpeg, sha, at).value))
  {
    var files := CreateMedia(db.files, media, owner, CommunityPublish, category, 0, jpeg, sha, at).value;
    CreateMediaKeeps(db.files, media, owner, CommunityPublish, category, 0, jpeg, sha, at);
    forall m | m in db.files.media ensures AssetStep(db.files.media[m], files.media[m]) { }
    FilesKeep(db, files);
  }

  lemma RemoveMediaKeeps(db: Db, owner: Id, media: Id, at: Time)
    requires Inv(db) && PostReview.DeleteMedia(db, owner, media, at).Ok?
    ensures Inv(PostReview.DeleteMedia(db, owner, media, at).value)
  {
    if media !in db.files.deletions {
      assert AssetOk(db.files, media);
      RequestDeletionKeeps(db.files, media, None, at);
      FilesKeep(db, RequestDeletion(db.files, media, None, at));
    }
  }

  lemma FinishRemovalKeeps(db: Db, event: Id, media: Id, at: Time)
    requires Inv(db) && FinishDeletion(db.files, event, media, at).Ok?
    ensures Inv(db.(files := FinishDeletion(db.files, event, media, at).value))
  {
    FinishDeletionKeeps(db.files, event, media, at);
    FilesKeep(db, FinishDeletion(db.files, event, media, at).value);
  }

  /** One asset row of the closing account, or of another one. */
  lemma LeavingAsset(db: Db, owner: Id, at: Time, m: Id)
    requires MediaOk(db.files) && LeaveAccount(db, owner, at).Ok? && m in db.files.media
    ensures var b := LeaveAccount(db, owner, at).value.files;
            && m in b.media && AssetOk(b, m) && AssetStep(db.files.media[m], b.media[m])
            && (db.files.media[m].owner != owner ==> b.media[m] == db.files.media[m])
  {
    assert AssetOk(db.files, m);
  }

  lemma LeavingDeletions(db: Db, owner: Id, at: Time, m: Id)
    requires MediaOk(db.files) && LeaveAccount(db, owner, at).Ok?
             && m in LeaveAccount(db, owner, at).value.files.deletions
    ensures var b := LeaveAccount(db, owner, at).value.files; m in b.media && b.deletions[m].owner == b.media[m].owner
  {
  }

  lemma LeaveKeepsFiles(db: Db, owner: Id, at: Time)
    requires MediaOk(db.files) && LeaveAccount(db, owner, at).Ok?
    ensures var b := LeaveAccount(db, owner, at).value.files;
            && MediaOk(b) && (forall m :: m in db.files.media ==>
                                m in b.media && AssetStep(db.files.media[m], b.media[m]))
            && (forall m :: m in db.files.media && db.files.media[m].owner != owner ==> b.media[m] == db.files.media[m])
  {
    var b := LeaveAccount(db, owner, at).value.files;
    forall m | m in db.files.media
      ensures m in b.media && AssetOk(b, m) && AssetStep(db.files.media[m], b.media[m])
      ensures db.files.media[m].owner != owner ==> b.media[m] == db.files.media[m]
    {
      LeavingAsset(db, owner, at, m);
    }
    forall m | m in b.deletions ensures m in b.media && b.deletions[m].owner == b.media[m].owner {
      LeavingDeletions(db, owner, at, m);
    }
  }

  lemma LeaveKeeps(db: Db, owner: Id, at: Time)
    requires Inv(db) && LeaveAccount(db, owner, at).Ok?
    ensures Inv(LeaveAccount(db, owner, at).value)
  {
    var b := LeaveAccount(db, owner, at).value;
    LeaveKeepsFiles(db, owner, at);
    forall id | id in b.posts ensures PostOk(b.posts[id]) && ShownBacked(b.files, b.posts[id]) {
      var p := db.posts[id];
      if b.posts[id] == p && !p.state.PostDeleted? { OtherOwnersImages(db, b.files, owner, p); }
    }
  }

  lemma OtherOwnersImages(db: Db, files: MediaDb, owner: Id, p: Post)
    requires ShownBacked(db.files, p) && p.owner != owner
    requires forall m :: m in db.files.media && db.files.media[m].owner != owner ==>
               m in files.media && files.media[m] == db.files.media[m]
    ensures ShownBacked(files, p)
  {
  }

  lemma EraseKeeps(db: Db, owner: Id)
    requires Inv(db) && EraseAccount(db, owner).Ok?
    ensures Inv(EraseAccount(db, owner).value)
  {
    var b := EraseAccount(db, owner).value;
    EraseKeepsFiles(db.files, owner);
    forall id | id in b.posts ensures PostOk(b.posts[id]) && ShownBacked(b.files, b.posts[id]) {
      if b != db { OtherOwnersImages(db, b.files, owner, db.posts[id]); }
    }
  }

  lemma ApplyKeeps(db: Db, op: Op)
    requires Inv(db) && Apply(db, op).Ok?
    ensures Inv(Apply(db, op).value)
  {
    match op
    case Create(owner, id, input, at) => CreateKeeps(db, owner, id, input, at);
    case Update(owner, id, expected, input, at) => UpdateKeeps(db, owner, id, expected, input, at);
    case Submit(owner, id, expected, at) => SubmitKeeps(db, owner, id, expected, at);
    case Withdraw(owner, id, expected, at) => WithdrawKeeps(db, owner, id, expected, at);
    case Delete(owner, id, expected, at) => DeleteKeeps(db, owner, id, expected, at);
    case Decide(actor, id, version, expected, round, decision, reason, at) =>
      DecideKeeps(db, actor, id, version, expected, round, decision, reason, at);
    case Remove(actor, id, expected, reason, at) => RemoveKeeps(db, actor, id, expected, reason, at);
    case Work(mediaOp) => WorkKeeps(db, mediaOp);
    case Upload(media, owner, category, jpeg, sha, at) => UploadKeeps(db, media, owner, category, jpeg, sha, at);
    case RemoveMedia(owner, media, at) => RemoveMediaKeeps(db, owner, media, at);
    case FinishRemoval(event, media, at) =>
      if (event, MediaDelete) !in db.files.receipts { FinishRemovalKeeps(db, event, media, at); }
    case Leave(owner, at) => LeaveKeeps(db, owner, at);
    case Erase(owner) => EraseKeeps(db, owner);
    case SetActive(_, _) =>
  }

  lemma {:induction false} RunKeeps(db: Db, ops: seq<Op>)
    requires Inv(db)
    ensures Inv(Run(db, ops))
    decreases |ops|
  {
    if ops != [] {
      if Apply(db, ops[0]).Ok? { ApplyKeeps(db, ops[0]); }
      RunKeeps(Step(db, ops[0]), ops[1..]);
    }
  }

  // ---------------------------------------------------------------- guarantees

  /** Where a run may start: any users, profiles, entries and assets, no posts yet. */
  lemma NoPostsIsOk(db: Db)
    requires db.posts == map[] && MediaOk(db.files)
    ensures Inv(db)
  {
  }

  /** In every reachable state every post that is not deleted is readable, its
      pending revision is under review in the post's round, its published revision
      is approved, its draft awaits submission, and its rounds add up. */
  lemma WorkflowHolds(ops: seq<Op>, start: Db, id: Id)
    requires Inv(start)
    ensures var db := Run(start, ops);
            id in db.posts && !db.posts[id].state.PostDeleted? ==>
              var p := db.posts[id];
              && Loadable(p) && StateAgrees(p) && RoundsAddUp(p)
              && (p.pending.Some? ==> p.draft.None? && p.pending.value in p.revisions
                                      && p.revisions[p.pending.value].state.ReviewPending?
                                      && p.revisions[p.pending.value].round == p.round)
              && (p.published.Some? ==> p.revisions[p.published.value].state.ReviewApproved?)
              && (p.draft.Some? ==> p.draft.value in p.revisions
                                    && p.revisions[p.draft.value].state in {ReviewDraft, ReviewRejected})
  {
    RunKeeps(start, ops);
    var db := Run(start, ops);
    if id in db.posts && !db.posts[id].state.PostDeleted? {
      assert PostOk(db.posts[id]);
      PostIsLoadable(db.posts[id]);
    }
  }

  /** In every reachable state every image a moderator or a reader may be shown is
      frozen to the existing derivation of a ready asset of the same owner. */
  lemma FrozenImagesExist(ops: seq<Op>, start: Db, id: Id, v: nat, l: Link)
    requires Inv(start)
    ensures var db := Run(start, ops);
            id in db.posts && !db.posts[id].state.PostDeleted?
            && (db.posts[id].pending == Some(v) || db.posts[id].published == Some(v))
            && v in db.posts[id].revisions && l in db.posts[id].revisions[v].links
            ==> Backed(db.files, db.posts[id].owner, l)
  {
    RunKeeps(start, ops);
  }

  /** Updating a post never loses the content it is updated from: an update or a
      withdrawal adds one revision and rewrites none of the content there is. */
  ghost predicate ContentKept(a: Post, b: Post) {
    forall v :: v in a.revisions && v in b.revisions ==>
      && b.revisions[v].content == a.revisions[v].content
      && MediaOfLinks(b.revisions[v].links) == MediaOfLinks(a.revisions[v].links)
      && (a.revisions[v].state.ReviewApproved? || a.revisions[v].state.ReviewCancelled? ==>
            b.revisions[v] == a.revisions[v])
  }

  lemma SubmitKeepsContent(db: Db, owner: Id, id: Id, expected: nat, at: Time)
    requires Inv(db) && SubmitPost(db, owner, id, expected, at).Ok?
    ensures ContentKept(db.posts[id], SubmitPost(db, owner, id, expected, at).value.posts[id])
  {
    FrozenIsBacked(db.files, owner, db.posts[id].revisions[db.posts[id].draft.value].links);
  }

  lemma UpdateKeepsContent(p: Post, input: Input, r: Revision, at: Time)
    ensures ContentKept(p, Updated(p, input, r, at))
            && Updated(p, input, r, at).revisions.Keys == p.revisions.Keys + {NextVersion(p)}
  {
    assert NextVersion(p) !in p.revisions;
  }

  lemma WithdrawKeepsContent(p: Post, at: Time)
    requires PostOk(p) && !Closed(p) && Withdrawn(p, at).Ok?
    ensures var n := Withdrawn(p, at).value; ContentKept(p, n) && p.revisions.Keys <= n.revisions.Keys
  {
    assert NextVersion(p) !in p.revisions;
  }

  lemma DecideKeepsContent(p: Post, actor: Id, v: nat, d: Decision, reason: Id, at: Time)
    requires PostOk(p) && p.pending == Some(v) && v in p.revisions
    ensures var n := DecidedPost(p, actor, v, d, reason, at); ContentKept(p, n) && p.revisions.Keys <= n.revisions.Keys
  {
  }

  lemma RemoveKeepsContent(p: Post, actor: Id, reason: Id, at: Time)
    requires PostOk(p)
    ensures var n := RemovedPost(p, actor, reason, at); ContentKept(p, n) && p.revisions.Keys <= n.revisions.Keys
  {
  }

  lemma SameContent(p: Post)
    ensures ContentKept(p, p)
  {
  }

  /** What becomes of one post in one transaction. */
  ghost predicate PostStep(a: Post, b: Post) {
    && b.owner == a.owner
    && (!b.state.PostDeleted? ==> ContentKept(a, b) && a.revisions.Keys <= b.revisions.Keys)
    && (a.state.PostDeleted? ==> b == a)
  }

  /** A transaction that writes one post. */
  lemma OnePostStep(db: Db, b: Db, i: Id, id: Id)
    requires i in db.posts && i in b.posts && b.posts == db.posts[i := b.posts[i]] && PostStep(db.posts[i], b.posts[i])
    requires id in db.posts
    ensures PostStep(db.posts[id], b.posts[id])
  {
    SameContent(db.posts[id]);
  }

  lemma UpdateIsStep(db: Db, owner: Id, i: Id, expected: nat, input: Input, at: Time, id: Id)
    requires Inv(db) && UpdatePost(db, owner, i, expected, input, at).Ok? && id in db.posts
    ensures var b := UpdatePost(db, owner, i, expected, input, at).value;
            id in b.posts && PostStep(db.posts[id], b.posts[id])
  {
    UpdateKeepsContent(db.posts[i], input, NewRevision(input, at).value, at);
    OnePostStep(db, UpdatePost(db, owner, i, expected, input, at).value, i, id);
  }

  lemma SubmitIsStep(db: Db, owner: Id, i: Id, expected: nat, at: Time, id: Id)
    requires Inv(db) && SubmitPost(db, owner, i, expected, at).Ok? && id in db.posts
    ensures var b := SubmitPost(db, owner, i, expected, at).value; id in b.posts && PostStep(db.posts[id], b.posts[id])
  {
    SubmitKeepsContent(db, owner, i, expected, at);
    OnePostStep(db, SubmitPost(db, owner, i, expected, at).value, i, id);
  }

  lemma WithdrawIsStep(db: Db, owner: Id, i: Id, expected: nat, at: Time, id: Id)
    requires Inv(db) && WithdrawPost(db, owner, i, expected, at).Ok? && id in db.posts
    ensures var b := WithdrawPost(db, owner, i, expected, at).value;
            id in b.posts && PostStep(db.posts[id], b.posts[id])
  {
    assert PostOk(db.posts[i]);
    WithdrawKeepsContent(db.posts[i], at);
    OnePostStep(db, WithdrawPost(db, owner, i, expected, at).value, i, id);
  }

  lemma DecideIsStep(db: Db, actor: Id, i: Id, v: nat, expected: nat, round: nat, d: Decision, reason: Id, at: Time,
                     id: Id)
    requires Inv(db) && DecidePost(db, actor, i, v, expected, round, d, reason, at).Ok? && id in db.posts
    ensures var b := DecidePost(db, actor, i, v, expected, round, d, reason, at).value;
            id in b.posts && PostStep(db.posts[id], b.posts[id])
  {
    assert PostOk(db.posts[i]);
    SameContent(db.posts[id]);
    if db.posts[i].revisions[v].reviewedAt.None? {
      DecideKeepsContent(db.posts[i], actor, v, d, reason, at);
      OnePostStep(db, DecidePost(db, actor, i, v, expected, round, d, reason, at).value, i, id);
    }
  }

  lemma RemoveIsStep(db: Db, actor: Id, i: Id, expected: nat, reason: Id, at: Time, id: Id)
    requires Inv(db) && RemovePost(db, actor, i, expected, reason, at).Ok? && id in db.posts
    ensures var b := RemovePost(db, actor, i, expected, reason, at).value;
            id in b.posts && PostStep(db.posts[id], b.posts[id])
  {
    assert PostOk(db.posts[i]);
    RemoveKeepsContent(db.posts[i], actor, reason, at);
    OnePostStep(db, RemovePost(db, actor, i, expected, reason, at).value, i, id);
  }

  lemma OtherIsStep(db: Db, op: Op, id: Id)
    requires !op.Update? && !op.Submit? && !op.Withdraw? && !op.Decide? && !op.Remove? && !op.Erase?
    requires Inv(db) && Apply(db, op).Ok? && id in db.posts
    ensures id in Apply(db, op).value.posts && PostStep(db.posts[id], Apply(db, op).value.posts[id])
  {
    SameContent(db.posts[id]);
  }

  /** Revisions are immutable: no transaction on a post that stays undeleted drops a
      revision or changes the content or the images of one, and an approved or
      cancelled revision is never touched again. A post goes only with its owner. */
  lemma RevisionsAreImmutable(db: Db, op: Op, id: Id)
    requires Inv(db) && Apply(db, op).Ok? && id in db.posts
    ensures var b := Apply(db, op).value;
            if id in b.posts then PostStep(db.posts[id], b.posts[id])
            else op == Erase(db.posts[id].owner) && db.posts[id].owner in b.gone
  {
    match op
    case Update(owner, i, expected, input, at) => UpdateIsStep(db, owner, i, expected, input, at, id);
    case Submit(owner, i, expected, at) => SubmitIsStep(db, owner, i, expected, at, id);
    case Withdraw(owner, i, expected, at) => WithdrawIsStep(db, owner, i, expected, at, id);
    case Decide(actor, i, v, expected, round, d, reason, at) =>
      DecideIsStep(db, actor, i, v, expected, round, d, reason, at, id);
    case Remove(actor, i, expected, reason, at) => RemoveIsStep(db, actor, i, expected, reason, at, id);
    case Erase(_) => SameContent(db.posts[id]);
    case _ => OtherIsStep(db, op, id);
  }

  /** Repeating a decision changes nothing, whoever repeats it and whatever revision
      number they still hold. */
  lemma RepeatedDecisionChangesNothing(
      db: Db, actor: Id, other: Id, id: Id, v: nat, expected: nat, stale: nat, round: nat, staleRound: nat, d: Decision,
      reason: Id, at: Time, later: Time)
    requires Inv(db) && DecidePost(db, actor, id, v, expected, round, d, reason, at).Ok?
    ensures var once := DecidePost(db, actor, id, v, expected, round, d, reason, at).value;
            DecidePost(once, other, id, v, stale, staleRound, d, reason, later) == Ok(once)
  {
    DecideKeeps(db, actor, id, v, expected, round, d, reason, at);
  }

  /** A decision on the pending revision settles exactly its round: a second,
      different decision on the same revision is refused. */
  lemma NoRoundIsDecidedTwice(
      db: Db, actor: Id, other: Id, id: Id, v: nat, expected: nat, stale: nat, round: nat, staleRound: nat, d: Decision,
      e: Decision, reason: Id, another: Id, at: Time, later: Time)
    requires DecidePost(db, actor, id, v, expected, round, d, reason, at).Ok? && (e != d || another != reason)
    ensures var once := DecidePost(db, actor, id, v, expected, round, d, reason, at).value;
            DecidePost(once, other, id, v, stale, staleRound, e, another, later) == Err(PostConflict)
  {
  }

  // --------------------------------------------------------------- public reads

  predicate Readable(db: Db, id: Id) {
    id in db.posts && db.posts[id].owner in db.active && db.posts[id].state.PostPublished?
      && db.posts[id].published.Some?
  }

  /** The owner has been erased, or has no post under this identifier but a deleted
      one. */
  predicate Buried(db: Db, owner: Id, id: Id) {
    owner in db.gone || (id in db.posts && db.posts[id].owner == owner && db.posts[id].state.PostDeleted?)
  }

  lemma BuriedStays(db: Db, op: Op, owner: Id, id: Id)
    requires Inv(db) && Apply(db, op).Ok? && Buried(db, owner, id)
    ensures Buried(Apply(db, op).value, owner, id)
  {
    if owner in db.gone { GoneStays(db, op, owner); } else { RevisionsAreImmutable(db, op, id); }
  }

  lemma GoneStays(db: Db, op: Op, owner: Id)
    requires Apply(db, op).Ok? && owner in db.gone
    ensures owner in Apply(db, op).value.gone
  {
  }

  lemma {:induction false} DeletedStays(db: Db, ops: seq<Op>, owner: Id, id: Id)
    requires Inv(db) && Buried(db, owner, id)
    ensures Inv(Run(db, ops)) && Buried(Run(db, ops), owner, id)
    decreases |ops|
  {
    if ops != [] {
      if Apply(db, ops[0]).Ok? {
        ApplyKeeps(db, ops[0]);
        BuriedStays(db, ops[0], owner, id);
      }
      DeletedStays(Step(db, ops[0]), ops[1..], owner, id);
    }
  }

  /** The posts an account has when its deletion is requested are never readable
      again, over any further run, reactivation and erasure included: they stay
      deleted until their rows go with the account. */
  lemma LeavingBuriesPosts(db: Db, owner: Id, at: Time, ops: seq<Op>, id: Id)
    requires Inv(db) && LeaveAccount(db, owner, at).Ok? && id in db.posts && db.posts[id].owner == owner
    ensures var b := Run(LeaveAccount(db, owner, at).value, ops);
            && Buried(b, owner, id)
            && (id in b.posts && b.posts[id].owner == owner ==> b.posts[id].state.PostDeleted? && !Readable(b, id))
  {
    LeaveKeeps(db, owner, at);
    DeletedStays(LeaveAccount(db, owner, at).value, ops, owner, id);
  }

  /** While an account is not active none of its posts is publicly readable, earlier
      or later ones, over any run that does not make it active again. */
  lemma {:induction false} LeftPostsStayUnreadable(db: Db, ops: seq<Op>, owner: Id, id: Id)
    requires owner !in db.active && SetActive(owner, true) !in ops
    ensures var b := Run(db, ops);
            && owner !in b.active
            && (id in b.posts && b.posts[id].owner == owner ==> !Readable(b, id))
    decreases |ops|
  {
    if ops != [] {
      assert ops == [ops[0]] + ops[1..];
      LeftPostsStayUnreadable(Step(db, ops[0]), ops[1..], owner, id);
    }
  }

  /** Reactivation is what the condition excludes: a post approved while its author
      is not active becomes readable by it, and by nothing else. */
  lemma ReadableAgainIff(db: Db, op: Op, id: Id)
    requires Inv(db) && Apply(db, op).Ok? && id in db.posts && db.posts[id].owner !in db.active
    ensures Readable(Apply(db, op).value, id)
            <==> op == SetActive(db.posts[id].owner, true) && db.posts[id].state.PostPublished?
  {
    if op.SetActive? {
      assert StateAgrees(db.posts[id]);
    } else {
      StaysInactive(db, op, db.posts[id].owner);
      RevisionsAreImmutable(db, op, id);
    }
  }

  lemma StaysInactive(db: Db, op: Op, user: Id)
    requires Apply(db, op).Ok? && user !in db.active && !op.SetActive?
    ensures user !in Apply(db, op).value.active
  {
  }

  // ------------------------------------------------------------- image references

  lemma {:induction false} DistinctCount(media: seq<Id>, found: set<Id>)
    requires forall m :: m in found ==> m in media
    ensures |found| <= |media|
    ensures |found| == |media| ==>
              (forall m :: m in media ==> m in found) && forall i, j :: 0 <= i < j < |media| ==> media[i] != media[j]
    decreases |media|
  {
    if media != [] {
      var rest := found - {media[0]};
      assert media == [media[0]] + media[1..];
      DistinctCount(media[1..], rest);
      if |found| == |media| {
        if media[0] in media[1..] { DistinctCount(media[1..], found); }
      }
    }
  }

  /** References are accepted exactly when the diary entry is the owner's and the
      images are distinct and each one is the owner's live community image: the
      query counts rows, so a repeated image is refused like a missing one. */
  lemma ReferencesAcceptedIff(db: Db, owner: Id, input: Input)
    ensures ValidateReferences(db, owner, input).Ok?
            <==> && (input.diary.Some? ==> (owner, input.diary.value) in db.diaries)
                 && (forall i, j :: 0 <= i < j < |input.media| ==> input.media[i] != input.media[j])
                 && (forall m :: m in input.media ==> m in Usable(db, owner, input.media))
  {
    var found := Usable(db, owner, input.media);
    DistinctCount(input.media, found);
    if (forall i, j :: 0 <= i < j < |input.media| ==> input.media[i] != input.media[j])
       && (forall m :: m in input.media ==> m in found)
    {
      AllFound(input.media, found);
    }
  }

  lemma {:induction false} AllFound(media: seq<Id>, found: set<Id>)
    requires forall i, j :: 0 <= i < j < |media| ==> media[i] != media[j]
    requires forall m :: m in media ==> m in found
    ensures |found| >= |media|
    decreases |media|
  {
    if media != [] {
      assert media == [media[0]] + media[1..];
      AllFound(media[1..], found - {media[0]});
    }
  }
}
