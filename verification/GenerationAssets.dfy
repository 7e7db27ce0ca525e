/** What becomes of an asset over any run: it only moves forward, its check is
    finished once, its row goes only with its owner, and its identifier is never
    used again. */
module GenerationAssets {
  import opened Base
  import opened GenerationTask
  import opened GenerationCleanup
  import opened GenerationRows
  import opened Media
  import opened GenerationStore
  import opened GenerationStoreInvariant
  import opened GenerationStoreProofs
  import opened GenerationStoreErasure
  import opened GenerationStoreSteps
  import opened GenerationRuns

  predicate SameCheck(a: MediaAsset, b: MediaAsset) {
    b.status == a.status && b.reason == a.reason && b.derivations == a.derivations
  }

  /** An asset only moves forward, and two moments at which its check is finished see
      the same result. */
  predicate CheckedOnce(a: MediaAsset, b: MediaAsset) {
    && b.owner == a.owner
    && Rank(a.status) <= Rank(b.status) && (Rank(a.status) == 3 && Rank(b.status) == 3 ==> SameCheck(a, b))
    && (Rank(a.status) >= 3 && !b.status.Deleted? ==> b.derivations == a.derivations)
  }

  /** Every stored asset has an identifier that was handed out. */
  ghost predicate AssetIdsOk(db: Db) { db.files.media.Keys <= db.used }

  /** No row of `a` has gone without its owner, and none has come under an identifier
      that was in use. */
  ghost predicate AssetsFollow(a: Db, b: Db) {
    && a.files.receipts <= b.files.receipts
    && (forall m :: m in b.files.media && m !in a.files.media ==> m !in a.used)
    && (forall m :: m in a.files.media ==>
          if m in b.files.media then CheckedOnce(a.files.media[m], b.files.media[m])
          else a.files.media[m].owner !in b.users)
  }

  /** The row was there and its owner has been erased with it. */
  predicate RowErased(db: Db, asset: Id) { asset in db.used && asset !in db.files.media }

  lemma CheckedTransitive(a: MediaAsset, b: MediaAsset, c: MediaAsset)
    requires CheckedOnce(a, b) && CheckedOnce(b, c)
    ensures CheckedOnce(a, c)
  {
  }

  /** Erased users never come back. */
  ghost predicate NoneReturn(a: Db, b: Db) { forall u :: u in b.users && u !in a.users ==> u !in a.used }

  ghost predicate OwnersIssued(db: Db) { forall m :: m in db.files.media ==> db.files.media[m].owner in db.used }

  lemma AssetsTransitive(a: Db, b: Db, c: Db)
    requires OwnersIssued(a) && AssetIdsOk(a) && a.used <= b.used && NoneReturn(b, c)
    requires AssetsFollow(a, b) && AssetsFollow(b, c)
    ensures AssetsFollow(a, c)
  {
    forall m | m in a.files.media
      ensures if m in c.files.media then CheckedOnce(a.files.media[m], c.files.media[m])
              else a.files.media[m].owner !in c.users
    {
      if m in b.files.media && m in c.files.media {
        CheckedTransitive(a.files.media[m], b.files.media[m], c.files.media[m]);
      } else if m in b.files.media {
        assert CheckedOnce(a.files.media[m], b.files.media[m]);
      } else {
        assert m in b.used;
      }
    }
  }

  lemma ErasedStays(a: Db, b: Db, asset: Id)
    requires Later(a, b) && AssetsFollow(a, b) && RowErased(a, asset)
    ensures RowErased(b, asset)
  {
  }

  // ------------------------------------------------------------ one transaction

  lemma SameAssetsFollow(db: Db, b: Db)
    requires b.files.media == db.files.media && db.files.receipts <= b.files.receipts
    ensures AssetsFollow(db, b)
  {
  }

  lemma MediaOpFollows(db: Db, op: MediaOp)
    requires OnMedia(db.files, op).Ok?
    ensures AssetsFollow(db, db.(files := OnMedia(db.files, op).value))
    ensures OnMedia(db.files, op).value.media.Keys == db.files.media.Keys
  {
  }

  lemma UploadFollows(db: Db, op: Op, timeout: Time, b: Db)
    requires op.Upload? && Apply(db, op, timeout) == Ok(b) && AssetIdsOk(db)
    ensures AssetsFollow(db, b) && AssetIdsOk(b)
  {
  }

  lemma RequestedFollows(db: Db, b: Db, media: Id, at: Time)
    requires media in db.files.media && !Gone(db.files.media[media].status)
    requires b.files == RequestDeletion(db.files, media, None, at)
    ensures AssetsFollow(db, b) && b.files.media.Keys == db.files.media.Keys
  {
  }

  lemma RemoveFollows(db: Db, user: Id, media: Id, blocked: bool, at: Time)
    requires Core(db) && DeleteMedia(db, user, media, blocked, at).Ok?
    ensures var b := DeleteMedia(db, user, media, blocked, at).value;
            AssetsFollow(db, b) && b.files.media.Keys == db.files.media.Keys
  {
    var b := DeleteMedia(db, user, media, blocked, at).value;
    DeleteKeepsCore(db, user, media, blocked, at);
    if b.files == db.files { SameAssetsFollow(db, b); } else { RequestedFollows(db, b, media, at); }
  }

  /** Finalization takes away the rows of the erased user and no other. */
  lemma FinalizeFollows(db: Db, user: Id, at: Time)
    requires FinalizeIfReady(db, user, at).Ok?
    ensures var b := FinalizeIfReady(db, user, at).value;
            && AssetsFollow(db, b) && b.files.media.Keys <= db.files.media.Keys && b.used == db.used
            && b.files.receipts == db.files.receipts
  {
  }

  lemma FinishedFollows(db: Db, event: Id, media: Id, at: Time)
    requires FinishDeletion(db.files, event, media, at).Ok?
    ensures var b := db.(files := FinishDeletion(db.files, event, media, at).value);
            AssetsFollow(db, b) && b.files.media.Keys == db.files.media.Keys
  {
  }

  lemma RemovalFollows(db: Db, event: Id, media: Id, at: Time)
    requires Core(db) && AssetIdsOk(db) && CompleteDeletion(db, event, media, at).Ok?
    ensures var b := CompleteDeletion(db, event, media, at).value; AssetsFollow(db, b) && AssetIdsOk(b)
  {
    if (event, MediaDelete) in db.files.receipts {
      SameAssetsFollow(db, db);
    } else {
      var files := FinishDeletion(db.files, event, media, at).value;
      var mid := db.(files := files);
      FinishedAssetKeepsCore(db, event, media, at);
      FinishedFollows(db, event, media, at);
      SameRowsLater(db, mid);
      FinalizeLater(mid, files.media[media].owner, at);
      FinalizeFollows(mid, files.media[media].owner, at);
      AssetsTransitive(db, mid, CompleteDeletion(db, event, media, at).value);
    }
  }

  lemma CleanupFollows(db: Db, claimed: Cleanup, at: Time)
    requires Core(db) && AssetIdsOk(db) && CompleteCleanup(db, claimed, at).Ok?
    ensures var b := CompleteCleanup(db, claimed, at).value; AssetsFollow(db, b) && AssetIdsOk(b)
  {
    var r := CompleteTaskCleanup(db.rows[claimed.task], claimed, at).value;
    var mid := db.(rows := db.rows[claimed.task := r]);
    CompletedRowKeepsCore(db, claimed, at);
    TableLater(db, mid, None);
    SameAssetsFollow(db, mid);
    if r.cleanups[claimed.scope].account.Some? {
      FinalizeLater(mid, r.cleanups[claimed.scope].owner, at);
      FinalizeFollows(mid, r.cleanups[claimed.scope].owner, at);
      AssetsTransitive(db, mid, CompleteCleanup(db, claimed, at).value);
    }
  }

  lemma ClosedFollows(db: Db, b: Db, ids: seq<Id>)
    requires ClosesExactly(db.files, b.files, ids)
    ensures AssetsFollow(db, b) && b.files.media.Keys == db.files.media.Keys
  {
    forall m | m in db.files.media ensures CheckedOnce(db.files.media[m], b.files.media[m]) {
      assert AssetStep(db.files.media[m], b.files.media[m]);
    }
  }

  lemma LeaveFollows(db: Db, user: Id, request: Id, at: Time)
    requires Core(db) && AssetIdsOk(db) && BeginAccountDeletion(db, user, request, at).Ok?
    ensures var b := BeginAccountDeletion(db, user, request, at).value; AssetsFollow(db, b) && AssetIdsOk(b)
  {
    var mid := CloseAccount(db, user, request, at).value;
    ClosedTables(db, user, request, at);
    ClosedLater(db, mid, user, request);
    ClosingKeepsCore(db, mid, user, request);
    ClosedFollows(db, mid, Ascending(Remaining(db.files, user)));
    if Remaining(db.files, user) == {} {
      FinalizeLater(mid, user, at);
      FinalizeFollows(mid, user, at);
      AssetsTransitive(db, mid, BeginAccountDeletion(db, user, request, at).value);
    }
  }

  lemma FinisherFollows(db: Db, op: Op, timeout: Time, b: Db)
    requires op.FinishRemoval? || op.FinishCleanup? || op.LeaveAccount?
    requires Core(db) && AssetIdsOk(db) && Apply(db, op, timeout) == Ok(b)
    ensures AssetsFollow(db, b) && AssetIdsOk(b)
  {
    match op
    case FinishRemoval(event, media, at) => RemovalFollows(db, event, media, at);
    case FinishCleanup(claimed, at) => CleanupFollows(db, claimed, at);
    case LeaveAccount(user, request, at) => LeaveFollows(db, user, request, at);
  }

  /** Transactions that leave all assets and receipts as they are. */
  predicate AwayFromAssets(op: Op) {
    || PeopleOp(op) || op.EndConsent? || op.RevokeTask? || op.RevokeSource? || op.Request? || op.Work? || op.Publish?
  }

  lemma AwayShape(db: Db, op: Op, timeout: Time, b: Db)
    requires AwayFromAssets(op) && Core(db) && Apply(db, op, timeout) == Ok(b)
    ensures b.files.media == db.files.media && b.files.receipts == db.files.receipts && db.used <= b.used
  {
    if PeopleOp(op) {
      PeopleOpShape(db, op, timeout, b);
    } else {
      match op
      case EndConsent(user, consent, at) => WithdrawKeepsCore(db, user, consent, at);
      case RevokeTask(user, task, at) => TaskCleanupKeepsCore(db, user, task, at);
      case RevokeSource(user, media, at) => SourceCleanupKeepsCore(db, user, {media}, at);
      case Request(facts, admission) => AcceptShape(db, facts, admission);
      case Work(task, taskOp) => WorkKeepsCore(db, task, taskOp, timeout);
      case Publish(lease, asset, at) => PublishKeepsCore(db, lease, asset, timeout, at);
    }
  }

  lemma AcceptShape(db: Db, f: Facts, p: Policy)
    requires Accept(db, f, p).Ok?
    ensures var b := Accept(db, f, p).value; b.files == db.files && db.used <= b.used
  {
  }

  lemma RemoveOpFollows(db: Db, user: Id, media: Id, blocked: bool, at: Time, timeout: Time, b: Db)
    requires Core(db) && AssetIdsOk(db) && Apply(db, Remove(user, media, blocked, at), timeout) == Ok(b)
    ensures AssetsFollow(db, b) && AssetIdsOk(b)
  {
    RemoveFollows(db, user, media, blocked, at);
    SameUsed(db, user, media, blocked, at);
  }

  lemma SameUsed(db: Db, user: Id, media: Id, blocked: bool, at: Time)
    requires DeleteMedia(db, user, media, blocked, at).Ok?
    ensures DeleteMedia(db, user, media, blocked, at).value.used == db.used
  {
  }

  lemma FilesFollow(db: Db, op: MediaOp, timeout: Time, b: Db)
    requires AssetIdsOk(db) && Apply(db, Files(op), timeout) == Ok(b)
    ensures AssetsFollow(db, b) && AssetIdsOk(b)
  {
    MediaOpFollows(db, op);
  }

  lemma ApplyFollows(db: Db, op: Op, timeout: Time, b: Db)
    requires Core(db) && AssetIdsOk(db) && Apply(db, op, timeout) == Ok(b)
    ensures AssetsFollow(db, b) && AssetIdsOk(b)
  {
    if AwayFromAssets(op) {
      AwayShape(db, op, timeout, b);
      SameAssetsFollow(db, b);
    } else if op.FinishRemoval? || op.FinishCleanup? || op.LeaveAccount? {
      FinisherFollows(db, op, timeout, b);
    } else if op.Upload? {
      UploadFollows(db, op, timeout, b);
    } else if op.Files? {
      FilesFollow(db, op.mediaOp, timeout, b);
    } else {
      RemoveOpFollows(db, op.user, op.media, op.blocked, op.at, timeout, b);
    }
  }

  // ------------------------------------------------------------------ every run

  lemma StepFollows(db: Db, op: Op, timeout: Time)
    requires Core(db) && AssetIdsOk(db)
    ensures var b := Step(db, op, timeout);
            AssetsFollow(db, b) && AssetIdsOk(b) && db.used <= b.used && NoneReturn(db, b)
  {
    if Apply(db, op, timeout).Ok? {
      ApplyFollows(db, op, timeout, Apply(db, op, timeout).value);
      ApplyLater(db, op, timeout, Apply(db, op, timeout).value);
    } else {
      SameAssetsFollow(db, db);
    }
  }

  /** Over any run an asset only moves forward, gets at most one check result and at
      most one derivation from it, keeps both until it is deleted, and loses its row
      only with its owner; no row ever comes under an identifier used before. */
  lemma {:induction false} RunFollows(db: Db, ops: seq<Op>, timeout: Time)
    requires Core(db) && AssetIdsOk(db)
    ensures var b := Run(db, ops, timeout);
            && AssetsFollow(db, b) && AssetIdsOk(b) && db.used <= b.used && NoneReturn(db, b)
            && forall m :: m in b.files.media ==> |b.files.media[m].derivations| <= 1
    decreases |ops|
  {
    if ops == [] {
      SameAssetsFollow(db, db);
      forall m | m in db.files.media ensures |db.files.media[m].derivations| <= 1 { assert AssetOk(db.files, m); }
    } else {
      var next := Step(db, ops[0], timeout);
      StepFollows(db, ops[0], timeout);
      StepKeepsCore(db, ops[0], timeout);
      RunFollows(next, ops[1..], timeout);
      AssetsTransitive(db, next, Run(db, ops, timeout));
    }
  }
}
