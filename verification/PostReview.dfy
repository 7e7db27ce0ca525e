/** The post review workflow: a post points at its draft, pending and published
    revisions; revisions are immutable but for their review outcome and the frozen
    keys of their images. Every transaction is a function to the next state. */
module PostReview {
  import opened Base
  import opened Media

  datatype PostState = PostDraft | PostPending | PostPublished | PostWithdrawn | PostRemoved | PostDeleted

  datatype ReviewState = ReviewDraft | ReviewPending | ReviewApproved | ReviewRejected | ReviewCancelled

  /** The exact object an image showed when its revision was submitted. */
  datatype Frozen = Frozen(key: Id, version: Id)

  datatype Link = Link(media: Id, frozen: Option<Frozen>)

  /** `content` stands for title, body and tags. */
  datatype Revision = Revision(
    content: Id, links: seq<Link>, state: ReviewState, round: nat, reason: Option<Id>,
    submittedAt: Option<Time>, reviewedAt: Option<Time>, createdAt: Time)

  datatype Decision = Approve | Reject

  datatype Action = Decided(actor: Id, version: nat, decision: Decision, reason: Id) | Removed(actor: Id, reason: Id)

  datatype Post = Post(
    owner: Id, state: PostState, revision: nat, draft: Option<nat>, pending: Option<nat>, published: Option<nat>,
    round: nat, diary: Option<Id>, publishedAt: Option<Time>, withdrawnAt: Option<Time>, deletedAt: Option<Time>,
    createdAt: Time, updatedAt: Time, revisions: map<nat, Revision>, actions: seq<Action>)

  datatype Input = Input(content: Id, diary: Option<Id>, media: seq<Id>)

  /** `gone` are the users whose row was erased. */
  datatype Db = Db(
    active: set<Id>, gone: set<Id>, profiles: set<Id>, diaries: set<(Id, Id)>, files: MediaDb, posts: map<Id, Post>)

  const MAX_IMAGES: nat := 9

  function FirstOf(a: Option<nat>, b: Option<nat>, c: Option<nat>): nat {
    if a.Some? then a.value else if b.Some? then b.value else if c.Some? then c.value else 0
  }

  /** Reading a post succeeds when the revisions it points at exist. */
  predicate Loadable(p: Post) {
    && !p.state.PostDeleted?
    && FirstOf(p.draft, p.pending, p.published) in p.revisions
    && (p.published.Some? ==> p.published.value in p.revisions)
  }

  function Loaded(p: Post): Result<Post, Error> { if Loadable(p) then Ok(p) else Err(NotFound) }

  // ------------------------------------------------------------------- content

  /** The distinct rows an `id IN (...)` query finds. */
  function Usable(db: Db, owner: Id, media: seq<Id>): set<Id> {
    set m | m in media && m in db.files.media
            && db.files.media[m].owner == owner && db.files.media[m].purpose.CommunityPublish?
            && db.files.media[m].category.OrdinaryImage? && !Gone(db.files.media[m].status)
  }

  function ValidateReferences(db: Db, owner: Id, input: Input): Result<(), Error> {
    if input.diary.Some? && (owner, input.diary.value) !in db.diaries then Err(NotFound)
    else if input.media != [] && |Usable(db, owner, input.media)| != |input.media| then Err(NotFound)
    else Ok(())
  }

  function Unfrozen(media: seq<Id>): (links: seq<Link>)
    ensures |links| == |media| && forall i :: 0 <= i < |media| ==> links[i] == Link(media[i], None)
  {
    if media == [] then [] else [Link(media[0], None)] + Unfrozen(media[1..])
  }

  function MediaOfLinks(links: seq<Link>): (media: seq<Id>)
    ensures |media| == |links| && forall i :: 0 <= i < |links| ==> media[i] == links[i].media
  {
    if links == [] then [] else [links[0].media] + MediaOfLinks(links[1..])
  }

  function NewRevision(input: Input, at: Time): Result<Revision, Error> {
    if |input.media| > MAX_IMAGES then Err(Unavailable)
    else Ok(Revision(input.content, Unfrozen(input.media), ReviewDraft, 0, None, None, None, at))
  }

  function MaxVersion(versions: set<nat>): (m: nat)
    ensures forall v :: v in versions ==> v <= m
    ensures m == 0 || m in versions
  {
    if versions == {} then 0
    else
      var v := Least(versions);
      var m := MaxVersion(versions - {v});
      assert forall w :: w in versions ==> w == v || w in versions - {v};
      Max(v, m)
  }

  function NextVersion(p: Post): nat { MaxVersion(p.revisions.Keys) + 1 }

  /** The newest derivation of a ready image of this owner; an asset has at most one. */
  function Freezable(files: MediaDb, owner: Id, media: Id): Option<Frozen> {
    if media !in files.media then None
    else
      var a := files.media[media];
      if a.owner != owner || !a.purpose.CommunityPublish? || !a.category.OrdinaryImage? || !a.status.Ready?
        || a.derivations == []
      then None
      else
        var d := a.derivations[|a.derivations| - 1];
        if d.version.None? then None else Some(Frozen(d.key, d.version.value))
  }

  function Freeze(files: MediaDb, owner: Id, links: seq<Link>): Result<seq<Link>, Error> {
    if links == [] then Ok([])
    else
      match Freezable(files, owner, links[0].media)
      case None => Err(PostConflict)
      case Some(frozen) =>
        var rest :- Freeze(files, owner, links[1..]);
        Ok([Link(links[0].media, Some(frozen))] + rest)
  }

  // -------------------------------------------------------------- transactions

  predicate SameInput(input: Input, p: Post, r: Revision) {
    input.content == r.content && input.diary == p.diary && input.media == MediaOfLinks(r.links)
  }

  function CreatePost(db: Db, owner: Id, id: Id, input: Input, at: Time): Result<Db, Error> {
    if id in db.posts then
      var p := db.posts[id];
      if p.owner != owner || p.state.PostDeleted? then Err(PostConflict)
      else if FirstOf(p.draft, p.pending, p.published) !in p.revisions || p.revision != 1
              || !SameInput(input, p, p.revisions[FirstOf(p.draft, p.pending, p.published)]) then Err(PostConflict)
      else
        var _ :- Loaded(p);
        Ok(db)
    else
      var _ :- ValidateReferences(db, owner, input);
      var _ :- if owner in db.gone then Err(Unavailable) else Ok(());
      var r :- NewRevision(input, at);
      var p :- Loaded(Post(owner, PostDraft, 1, Some(1), None, None, 0, input.diary, None, None, None, at, at,
                           map[1 := r], []));
      Ok(db.(posts := db.posts[id := p]))
  }

  /** The post, when it exists and belongs to the owner. */
  function OwnedPost(db: Db, owner: Id, id: Id): Result<Post, Error> {
    if id !in db.posts || db.posts[id].owner != owner then Err(NotFound) else Ok(db.posts[id])
  }

  predicate Closed(p: Post) { p.state.PostDeleted? || p.state.PostRemoved? }

  function Updated(p: Post, input: Input, r: Revision, at: Time): Post {
    var v := NextVersion(p);
    p.(state := if p.published.Some? then PostPublished else PostDraft, revision := p.revision + 1, draft := Some(v),
       diary := input.diary, updatedAt := at, withdrawnAt := None, revisions := p.revisions[v := r])
  }

  function UpdatePost(db: Db, owner: Id, id: Id, expected: nat, input: Input, at: Time): Result<Db, Error> {
    var p :- OwnedPost(db, owner, id);
    if p.revision != expected || p.pending.Some? || Closed(p) then Err(PostConflict)
    else
      var _ :- ValidateReferences(db, owner, input);
      var r :- NewRevision(input, at);
      var updated :- Loaded(Updated(p, input, r, at));
      Ok(db.(posts := db.posts[id := updated]))
  }

  /** The review update only matches a draft or rejected revision; nothing checks
      that it matched. */
  function SubmitRevision(r: Revision, links: seq<Link>, round: nat, at: Time): Revision {
    var frozen := r.(links := links);
    if r.state.ReviewDraft? || r.state.ReviewRejected? then
      frozen.(state := ReviewPending, round := round, reason := None, submittedAt := Some(at), reviewedAt := None)
    else frozen
  }

  function Submitted(p: Post, links: seq<Link>, at: Time): Post
    requires p.draft.Some? && p.draft.value in p.revisions
  {
    var v := p.draft.value;
    p.(state := if p.published.Some? then PostPublished else PostPending, revision := p.revision + 1,
       draft := None, pending := Some(v), round := p.round + 1, updatedAt := at,
       revisions := p.revisions[v := SubmitRevision(p.revisions[v], links, p.round + 1, at)])
  }

  function SubmitPost(db: Db, owner: Id, id: Id, expected: nat, at: Time): Result<Db, Error> {
    var p :- OwnedPost(db, owner, id);
    if p.revision != expected || p.draft.None? || p.pending.Some? || Closed(p) then Err(PostConflict)
    else if owner !in db.profiles then Err(Forbidden)
    else if p.draft.value !in p.revisions then Err(NotFound)
    else
      var links :- Freeze(db.files, owner, p.revisions[p.draft.value].links);
      var submitted :- Loaded(Submitted(p, links, at));
      Ok(db.(posts := db.posts[id := submitted]))
  }

  /** The cancelling update only matches a pending revision. */
  function CancelRevision(r: Revision, at: Time): Revision {
    if r.state.ReviewPending? then r.(state := ReviewCancelled, reviewedAt := Some(at)) else r
  }

  function CancelPending(p: Post, at: Time): map<nat, Revision> {
    if p.pending.Some? && p.pending.value in p.revisions then
      p.revisions[p.pending.value := CancelRevision(p.revisions[p.pending.value], at)]
    else p.revisions
  }

  function Withdrawn(p: Post, at: Time): Result<Post, Error> {
    var source := FirstOf(p.pending, p.draft, p.published);
    if source !in p.revisions then Err(NotFound)
    else
      var content := p.revisions[source];
      var r :- NewRevision(Input(content.content, p.diary, MediaOfLinks(content.links)), at);
      var v := NextVersion(p);
      Ok(p.(state := PostWithdrawn, revision := p.revision + 1, draft := Some(v), pending := None, published := None,
            publishedAt := None, withdrawnAt := Some(at), updatedAt := at, revisions := CancelPending(p, at)[v := r]))
  }

  function WithdrawPost(db: Db, owner: Id, id: Id, expected: nat, at: Time): Result<Db, Error> {
    var p :- OwnedPost(db, owner, id);
    if p.revision != expected || Closed(p) || (p.pending.None? && p.published.None?) then Err(PostConflict)
    else
      var w :- Withdrawn(p, at);
      var withdrawn :- Loaded(w);
      Ok(db.(posts := db.posts[id := withdrawn]))
  }

  function Gravestone(p: Post, at: Time): Post {
    p.(state := PostDeleted, draft := None, pending := None, published := None, diary := None, publishedAt := None,
       withdrawnAt := Some(at), deletedAt := Some(at), updatedAt := at)
  }

  function DeletePost(db: Db, owner: Id, id: Id, expected: nat, at: Time): Result<Db, Error> {
    var p :- OwnedPost(db, owner, id);
    if p.state.PostDeleted? then Ok(db)
    else if p.revision != expected then Err(PostConflict)
    else Ok(db.(posts := db.posts[id := Gravestone(p, at).(revision := p.revision + 1, revisions := map[])]))
  }

  function Outcome(d: Decision): ReviewState { if d.Approve? then ReviewApproved else ReviewRejected }

  function DecidedPost(p: Post, actor: Id, v: nat, d: Decision, reason: Id, at: Time): Post
    requires v in p.revisions
  {
    var base := p.(revision := p.revision + 1, pending := None, updatedAt := at,
                   revisions := p.revisions[v := p.revisions[v].(state := Outcome(d), reason := Some(reason),
                                                                 reviewedAt := Some(at))],
                   actions := p.actions + [Decided(actor, v, d, reason)]);
    if d.Approve? then base.(state := PostPublished, published := Some(v), publishedAt := Some(at), withdrawnAt := None)
    else base.(draft := Some(v), state := if p.published.None? then PostDraft else PostPublished)
  }

  /** A decision that was already taken, with the same outcome and reason. */
  predicate Replayed(r: Revision, d: Decision, reason: Id) { r.state == Outcome(d) && r.reason == Some(reason) }

  function DecidePost(db: Db, actor: Id, id: Id, v: nat, expected: nat, round: nat, d: Decision, reason: Id, at: Time)
    : Result<Db, Error>
  {
    if id !in db.posts || v !in db.posts[id].revisions then Err(NotFound)
    else
      var p, r := db.posts[id], db.posts[id].revisions[v];
      if r.reviewedAt.Some? then
        if !Replayed(r, d, reason) then Err(PostConflict)
        else
          var _ :- Loaded(p);
          Ok(db)
      else if p.revision != expected || p.pending != Some(v) || p.round != round || !r.state.ReviewPending?
        || r.round != round
      then Err(PostConflict)
      else
        var decided :- Loaded(DecidedPost(p, actor, v, d, reason, at));
        Ok(db.(posts := db.posts[id := decided]))
  }

  function RemovedPost(p: Post, actor: Id, reason: Id, at: Time): Post {
    p.(state := PostRemoved, revision := p.revision + 1, pending := None, withdrawnAt := Some(at), updatedAt := at,
       draft := if p.published.None? && p.draft.None? && p.pending.Some? then p.pending else p.draft,
       revisions := CancelPending(p, at), actions := p.actions + [Removed(actor, reason)])
  }

  function RemovePost(db: Db, actor: Id, id: Id, expected: nat, reason: Id, at: Time): Result<Db, Error> {
    if id !in db.posts then Err(NotFound)
    else
      var p := db.posts[id];
      if p.revision != expected || !p.state.PostPublished? || p.published.None? then Err(PostConflict)
      else Ok(db.(posts := db.posts[id := RemovedPost(p, actor, reason, at)]))
  }

  // --------------------------------------------------------- media and accounts

  predicate LinksTo(p: Post, media: Id) {
    exists v :: v in p.revisions && exists l :: l in p.revisions[v].links && l.media == media
  }

  /** Any revision of any post that is not deleted keeps its images alive. */
  predicate Referenced(db: Db, media: Id) {
    exists id :: id in db.posts && !db.posts[id].state.PostDeleted? && LinksTo(db.posts[id], media)
  }

  function DeleteMedia(db: Db, owner: Id, media: Id, at: Time): Result<Db, Error> {
    if owner !in db.active || media !in db.files.media || db.files.media[media].owner != owner then Err(NotFound)
    else if media in db.files.deletions then Ok(db)
    else if db.files.media[media].status.Deleted? || Referenced(db, media) then Err(MediaConflict)
    else Ok(db.(files := RequestDeletion(db.files, media, None, at)))
  }

  /** Deleting an account buries every post of the owner, leaving its revisions,
      and starts deleting every asset of the owner. */
  function LeaveAccount(db: Db, owner: Id, at: Time): Result<Db, Error> {
    if owner !in db.active then Err(Authentication)
    else
      Ok(db.(active := db.active - {owner},
             posts := map id | id in db.posts ::
                        if db.posts[id].owner == owner && !db.posts[id].state.PostDeleted? then
                          Gravestone(db.posts[id], at)
                        else db.posts[id],
             files := db.files.(media := map m | m in db.files.media ::
                                           if db.files.media[m].owner == owner
                                             && !db.files.media[m].status.Deleted? then
                                             db.files.media[m].(status := Deleting, updatedAt := at)
                                           else db.files.media[m],
                                deletions := map m | m in db.files.media
                                               && (m in db.files.deletions || db.files.media[m].owner == owner) ::
                                               if m in db.files.deletions then db.files.deletions[m]
                                               else Deletion(owner, None, DeletionPending, 0, None))))
  }

  predicate AllDeleted(files: MediaDb, owner: Id) {
    forall m :: m in MediaOf(files, owner) ==> files.media[m].status.Deleted?
  }

  /** The end of an account deletion: the user row goes, and with it the posts and
      the assets. */
  function EraseAccount(db: Db, owner: Id): Result<Db, Error> {
    if owner in db.active then Err(Authentication)
    else if !AllDeleted(db.files, owner) then Ok(db)
    else
      Ok(db.(gone := db.gone + {owner}, files := EraseFiles(db.files, owner),
             posts := db.posts - (set id | id in db.posts && db.posts[id].owner == owner)))
  }

  datatype Op =
    | Create(owner: Id, id: Id, input: Input, at: Time)
    | Update(owner: Id, id: Id, expected: nat, input: Input, at: Time)
    | Submit(owner: Id, id: Id, expected: nat, at: Time)
    | Withdraw(owner: Id, id: Id, expected: nat, at: Time)
    | Delete(owner: Id, id: Id, expected: nat, at: Time)
    | Decide(actor: Id, id: Id, version: nat, expected: nat, round: nat, decision: Decision, reason: Id, at: Time)
    | Remove(actor: Id, id: Id, expected: nat, reason: Id, at: Time)
    | Work(mediaOp: MediaOp)
    | Upload(media: Id, owner: Id, category: Category, jpeg: bool, sha: Id, at: Time)
    | RemoveMedia(owner: Id, media: Id, at: Time)
    | FinishRemoval(event: Id, media: Id, at: Time)
    | Leave(owner: Id, at: Time)
    | Erase(owner: Id)
    | SetActive(user: Id, active: bool)

  function Apply(db: Db, op: Op): Result<Db, Error> {
    match op
    case Create(owner, id, input, at) => CreatePost(db, owner, id, input, at)
    case Update(owner, id, expected, input, at) => UpdatePost(db, owner, id, expected, input, at)
    case Submit(owner, id, expected, at) => SubmitPost(db, owner, id, expected, at)
    case Withdraw(owner, id, expected, at) => WithdrawPost(db, owner, id, expected, at)
    case Delete(owner, id, expected, at) => DeletePost(db, owner, id, expected, at)
    case Decide(actor, id, version, expected, round, decision, reason, at) =>
      DecidePost(db, actor, id, version, expected, round, decision, reason, at)
    case Remove(actor, id, expected, reason, at) => RemovePost(db, actor, id, expected, reason, at)
    case Work(mediaOp) =>
      var files :- OnMedia(db.files, mediaOp);
      Ok(db.(files := files))
    case Upload(media, owner, category, jpeg, sha, at) =>
      if owner !in db.active then Err(MediaConflict)
      else
        var files :- CreateMedia(db.files, media, owner, CommunityPublish, category, 0, jpeg, sha, at);
        Ok(db.(files := files))
    case RemoveMedia(owner, media, at) => DeleteMedia(db, owner, media, at)
    case FinishRemoval(event, media, at) =>
      if (event, MediaDelete) in db.files.receipts then Ok(db)
      else
        var files :- FinishDeletion(db.files, event, media, at);
        Ok(db.(files := files))
    case Leave(owner, at) => LeaveAccount(db, owner, at)
    case Erase(owner) => EraseAccount(db, owner)
    case SetActive(user, active) =>
      if user in db.gone then Err(NotFound)
      else Ok(db.(active := if active then db.active + {user} else db.active - {user}))
  }

  function Step(db: Db, op: Op): Db { match Apply(db, op) case Ok(next) => next case Err(_) => db }

  function Run(db: Db, ops: seq<Op>): Db
    decreases |ops|
  {
    if ops == [] then db else Run(Step(db, ops[0]), ops[1..])
  }
}
