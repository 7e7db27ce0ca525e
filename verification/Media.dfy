/** The media tables: one row per asset with its derivations, its deletion
    request, the consents assets were uploaded under, and the inbox receipts that
    make the two worker handlers idempotent. */
module Media {
  import opened Base

  datatype MediaStatus = PendingUpload | Uploaded | Checking | Ready | Rejected | Deleting | Deleted

  datatype MediaPurpose = AvatarSource | GenerationInput | WardrobeImage | DiaryImage | CommunityPublish | ProfileAvatar

  datatype Category = PersonPhoto | OrdinaryImage

  datatype Reason = ConsentUnavailable | ConsentWithdrawn | ConsentMismatch | UploadExpired | Erased | Checked(code: Id)

  /** `normalized` says that the key is the asset's own normalized-copy key. */
  datatype Derivation = Derivation(key: Id, version: Option<Id>, normalized: bool, createdAt: Time)

  datatype MediaAsset = MediaAsset(
    owner: Id, consent: Option<Id>, purpose: MediaPurpose, category: Category, jpeg: bool, sha: Id,
    version: Option<Id>, status: MediaStatus, reason: Option<Reason>, uploadExpiresAt: Time,
    sourceDeletedAt: Option<Time>, derivations: seq<Derivation>, updatedAt: Time)

  datatype DeletionStatus = DeletionPending | DeletionRunning | DeletionComplete

  datatype Deletion = Deletion(owner: Id, account: Option<Id>, status: DeletionStatus, attempts: nat,
                               completedAt: Option<Time>)

  datatype Consent = Consent(owner: Id, purpose: MediaPurpose, category: Category, policy: Id,
                             withdrawnAt: Option<Time>)

  datatype Handler = MediaCheck | MediaDelete

  datatype MediaDb = MediaDb(
    media: map<Id, MediaAsset>, deletions: map<Id, Deletion>, consents: map<Id, Consent>, receipts: set<(Id, Handler)>)

  const MEDIA_POLICY: Id := 1
  const GENERATION_INPUT_POLICY: Id := 2
  const UPLOAD_LIFETIME: Time := 900_000_000

  predicate NeedsConsent(p: MediaPurpose) { p.AvatarSource? || p.GenerationInput? }

  function CurrentPolicy(p: MediaPurpose): Id { if p.GenerationInput? then GENERATION_INPUT_POLICY else MEDIA_POLICY }

  predicate Gone(s: MediaStatus) { s.Deleting? || s.Deleted? }

  datatype MediaOp =
    | CompleteUpload(owner: Id, media: Id, version: Id, at: Time)
    | BeginCheck(media: Id, at: Time)
    | CompleteCheck(event: Id, media: Id, derivation: Option<Derivation>, ready: bool, reason: Id, at: Time)
    | BeginDeletion(media: Id, at: Time)
    | MarkSourceDeleted(media: Id, at: Time)

  function Put(db: MediaDb, id: Id, a: MediaAsset): MediaDb { db.(media := db.media[id := a]) }

  function CreateMedia(
      db: MediaDb, id: Id, owner: Id, purpose: MediaPurpose, wanted: Category, consent: Id, jpeg: bool, sha: Id,
      at: Time)
    : Result<MediaDb, Error>
  {
    var category :=
      if purpose.AvatarSource? then PersonPhoto else if purpose.GenerationInput? then wanted else OrdinaryImage;
    if NeedsConsent(purpose)
       && (consent !in db.consents || db.consents[consent].owner != owner || db.consents[consent].purpose != purpose
           || db.consents[consent].category != category || db.consents[consent].policy != CurrentPolicy(purpose)
           || db.consents[consent].withdrawnAt.Some?) then Err(NotFound)
    else if id in db.media then Err(Unavailable)
    else
      var held := if NeedsConsent(purpose) then Some(consent) else None;
      Ok(Put(db, id, MediaAsset(owner, held, purpose, category, jpeg, sha, None, PendingUpload, None,
                                at + UPLOAD_LIFETIME,
                           None, [], at)))
  }

  function CompleteMedia(db: MediaDb, owner: Id, id: Id, version: Id, at: Time): Result<MediaDb, Error> {
    if id !in db.media || db.media[id].owner != owner then Err(NotFound)
    else
      var a := db.media[id];
      if a.status.Uploaded? && a.version == Some(version) then Ok(db)
      else if !a.status.PendingUpload? || a.version.Some? || a.uploadExpiresAt <= at then Err(MediaConflict)
      else Ok(Put(db, id, a.(status := Uploaded, version := Some(version), updatedAt := at)))
  }

  /** Why an uploaded asset may not be checked, if anything stands against it. */
  function ConsentProblem(db: MediaDb, a: MediaAsset): Option<Reason> {
    if !NeedsConsent(a.purpose) then None
    else if a.consent.None? || a.consent.value !in db.consents then Some(ConsentUnavailable)
    else
      var c := db.consents[a.consent.value];
      if c.owner != a.owner || c.purpose != a.purpose || c.category != a.category then Some(ConsentUnavailable)
      else if c.withdrawnAt.Some? then Some(ConsentWithdrawn)
      else if c.policy != CurrentPolicy(a.purpose) then Some(ConsentMismatch)
      else None
  }

  function BeginMediaCheck(db: MediaDb, id: Id, at: Time): Result<MediaDb, Error> {
    if id !in db.media then Err(NotFound)
    else
      var a := db.media[id];
      if !a.status.Uploaded? then Ok(db)
      else
        match ConsentProblem(db, a)
        case Some(reason) => Ok(Put(db, id, a.(status := Rejected, reason := Some(reason), updatedAt := at)))
        case None => Ok(Put(db, id, a.(status := Checking, updatedAt := at)))
  }

  function CompleteMediaCheck(
      db: MediaDb, event: Id, id: Id, derivation: Option<Derivation>, ready: bool, reason: Id, at: Time)
    : Result<MediaDb, Error>
  {
    if (event, MediaCheck) in db.receipts then Ok(db)
    else if id !in db.media || !db.media[id].status.Checking? then Err(MediaConflict)
    else
      var a := db.media[id];
      var added := if derivation.Some? then a.derivations + [derivation.value] else a.derivations;
      Ok(Put(db, id, a.(status := if ready then Ready else Rejected, reason := Some(Checked(reason)),
                        derivations := added, updatedAt := at)).(receipts := db.receipts + {(event, MediaCheck)}))
  }

  function BeginDeletion(db: MediaDb, id: Id, at: Time): Result<MediaDb, Error> {
    if id !in db.media || id !in db.deletions then Err(NotFound)
    else
      var d := db.deletions[id];
      if d.status.DeletionComplete? then Ok(db)
      else Ok(db.(deletions := db.deletions[id := d.(status := DeletionRunning, attempts := d.attempts + 1)]))
  }

  /** The media half of finishing a deletion: derivations, asset, request, receipt. */
  function FinishDeletion(db: MediaDb, event: Id, id: Id, at: Time): Result<MediaDb, Error> {
    if id !in db.media then Err(NotFound)
    else
      var a := db.media[id];
      if !a.status.Deleting? || id !in db.deletions then Err(MediaConflict)
      else Ok(db.(media := db.media[id := a.(status := Deleted, reason := Some(Erased), version := None, sha := 0,
                                             derivations := [], updatedAt := at)],
                  deletions := db.deletions[id :=
                                            db.deletions[id].(status := DeletionComplete, completedAt := Some(at))],
                  receipts := db.receipts + {(event, MediaDelete)}))
  }

  function MarkSourceDeleted(db: MediaDb, id: Id, at: Time): MediaDb {
    if id !in db.media || db.media[id].sourceDeletedAt.Some? then db
    else
      var a := db.media[id].(sourceDeletedAt := Some(at), updatedAt := at);
      Put(db, id, if a.status.PendingUpload? then a.(status := Rejected, reason := Some(UploadExpired)) else a)
  }

  /** The media half of deleting one asset. */
  function RequestDeletion(db: MediaDb, id: Id, account: Option<Id>, at: Time): MediaDb
    requires id in db.media
  {
    db.(media := db.media[id := db.media[id].(status := Deleting, updatedAt := at)],
        deletions := db.deletions[id := Deletion(db.media[id].owner, account, DeletionPending, 0, None)])
  }

  function MediaOf(files: MediaDb, owner: Id): set<Id> { set m | m in files.media && files.media[m].owner == owner }

  /** Deleting a user row cascades to the owner's media, deletions and consents. */
  function EraseFiles(f: MediaDb, owner: Id): MediaDb {
    MediaDb(f.media - MediaOf(f, owner),
            f.deletions - (set m | m in f.deletions && f.deletions[m].owner == owner),
            f.consents - (set c | c in f.consents && f.consents[c].owner == owner), f.receipts)
  }

  function OnMedia(db: MediaDb, op: MediaOp): Result<MediaDb, Error> {
    match op
    case CompleteUpload(owner, media, version, at) => CompleteMedia(db, owner, media, version, at)
    case BeginCheck(media, at) => BeginMediaCheck(db, media, at)
    case CompleteCheck(event, media, derivation, ready, reason, at) =>
      CompleteMediaCheck(db, event, media, derivation, ready, reason, at)
    case BeginDeletion(media, at) => BeginDeletion(db, media, at)
    case MarkSourceDeleted(media, at) => Ok(MarkSourceDeleted(db, media, at))
  }

  // ----------------------------------------------------------------- invariant

  /** How far an asset has come; both check results are final for the check. */
  function Rank(s: MediaStatus): nat {
    match s
    case PendingUpload => 0
    case Uploaded => 1
    case Checking => 2
    case Ready => 3
    case Rejected => 3
    case Deleting => 4
    case Deleted => 5
  }

  ghost predicate AssetOk(db: MediaDb, id: Id)
    requires id in db.media
  {
    var a := db.media[id];
    && (NeedsConsent(a.purpose) <==> a.consent.Some?)
    && |a.derivations| <= 1 && (a.derivations != [] ==> 3 <= Rank(a.status) <= 4)
    && (Gone(a.status) <==> id in db.deletions)
    && (a.status.Deleted? <==> id in db.deletions && db.deletions[id].status.DeletionComplete?)
  }

  ghost predicate MediaOk(db: MediaDb) {
    && (forall id :: id in db.media ==> AssetOk(db, id))
    && (forall id :: id in db.deletions ==> id in db.media && db.deletions[id].owner == db.media[id].owner)
  }

  /** An asset over any number of transactions: it only moves forward, it gets at
      most one check result, and its derivation is fixed by that result until it
      is erased. */
  ghost predicate AssetStep(a: MediaAsset, b: MediaAsset) {
    && b.owner == a.owner && b.purpose == a.purpose && b.category == a.category && b.consent == a.consent
    && Rank(a.status) <= Rank(b.status) && (Rank(a.status) == Rank(b.status) ==> a.status == b.status)
    && (Rank(a.status) >= 3 && !b.status.Deleted? ==> b.derivations == a.derivations)
    && (a.status.Deleted? ==> b == a.(sourceDeletedAt := b.sourceDeletedAt, updatedAt := b.updatedAt))
  }

  /** No asset is lost, none changes its deletion link, none becomes deleted. */
  ghost predicate MediaStep(a: MediaDb, b: MediaDb) {
    && a.media.Keys == b.media.Keys && a.deletions.Keys <= b.deletions.Keys && a.receipts <= b.receipts
    && (forall id :: id in a.media ==> AssetStep(a.media[id], b.media[id]))
  }

  ghost predicate SameGone(a: MediaDb, b: MediaDb) {
    forall id :: id in a.media && id in b.media ==>
      && Gone(b.media[id].status) == Gone(a.media[id].status)
      && b.media[id].status.Deleted? == a.media[id].status.Deleted?
  }

  lemma PutKeeps(db: MediaDb, id: Id, a: MediaAsset)
    requires MediaOk(db) && id in db.media && AssetStep(db.media[id], a)
    requires Gone(a.status) == Gone(db.media[id].status) && a.status.Deleted? == db.media[id].status.Deleted?
    requires |a.derivations| <= 1 && (a.derivations != [] ==> 3 <= Rank(a.status) <= 4)
    ensures var b := Put(db, id, a); MediaOk(b) && MediaStep(db, b) && SameGone(db, b)
  {
    var b := Put(db, id, a);
    forall i | i in b.media ensures AssetOk(b, i) {
      assert AssetOk(db, i);
    }
    forall i | i in db.media ensures AssetStep(db.media[i], b.media[i]) { }
  }

  lemma BeginDeletionKeeps(db: MediaDb, id: Id, at: Time)
    requires MediaOk(db) && BeginDeletion(db, id, at).Ok?
    ensures var b := BeginDeletion(db, id, at).value; MediaOk(b) && MediaStep(db, b) && SameGone(db, b)
  {
    var b := BeginDeletion(db, id, at).value;
    forall i | i in b.media ensures AssetOk(b, i) {
      assert AssetOk(db, i);
    }
  }

  /** Every other worker or upload transaction rewrites one asset row. */
  lemma OnMediaShape(db: MediaDb, op: MediaOp)
    requires !op.BeginDeletion? && op.media in db.media && AssetOk(db, op.media) && OnMedia(db, op).Ok?
    ensures var b := OnMedia(db, op).value;
            && op.media in b.media && b == Put(db, op.media, b.media[op.media]).(receipts := b.receipts)
            && db.receipts <= b.receipts
    ensures var a, n := db.media[op.media], OnMedia(db, op).value.media[op.media];
            && AssetStep(a, n) && Gone(n.status) == Gone(a.status) && n.status.Deleted? == a.status.Deleted?
            && |n.derivations| <= 1 && (n.derivations != [] ==> 3 <= Rank(n.status) <= 4)
  {
    assert db == Put(db, op.media, db.media[op.media]);
  }

  /** The worker and upload transactions keep the tables well formed and neither
      start nor finish a deletion. */
  lemma OnMediaKeeps(db: MediaDb, op: MediaOp)
    requires MediaOk(db) && OnMedia(db, op).Ok?
    ensures var b := OnMedia(db, op).value;
            MediaOk(b) && MediaStep(db, b) && SameGone(db, b) && b.consents == db.consents
  {
    var b := OnMedia(db, op).value;
    if op.BeginDeletion? {
      BeginDeletionKeeps(db, op.media, op.at);
    } else if op.media in db.media {
      assert AssetOk(db, op.media);
      OnMediaShape(db, op);
      PutKeeps(db, op.media, b.media[op.media]);
      ReceiptsOnly(Put(db, op.media, b.media[op.media]), b);
    } else {
      assert b == db;
      forall i | i in db.media ensures AssetStep(db.media[i], db.media[i]) { }
    }
  }

  lemma ReceiptsOnly(a: MediaDb, b: MediaDb)
    requires MediaOk(a) && b == a.(receipts := b.receipts)
    ensures MediaOk(b)
  {
    forall i | i in b.media ensures AssetOk(b, i) {
      assert AssetOk(a, i);
    }
  }

  lemma CreateMediaKeeps(
      db: MediaDb, id: Id, owner: Id, purpose: MediaPurpose, wanted: Category, consent: Id, jpeg: bool, sha: Id,
      at: Time)
    requires MediaOk(db) && CreateMedia(db, id, owner, purpose, wanted, consent, jpeg, sha, at).Ok?
    ensures MediaOk(CreateMedia(db, id, owner, purpose, wanted, consent, jpeg, sha, at).value)
  {
    var b := CreateMedia(db, id, owner, purpose, wanted, consent, jpeg, sha, at).value;
    forall i | i in b.media ensures AssetOk(b, i) {
      if i != id { assert AssetOk(db, i); }
    }
  }

  /** Writing one asset on its way out together with its deletion row. */
  lemma GoneRowsKeep(a: MediaDb, b: MediaDb, id: Id)
    requires MediaOk(a) && id in a.media && id in b.media && id in b.deletions
    requires b.media == a.media[id := b.media[id]] && b.deletions == a.deletions[id := b.deletions[id]]
    requires a.receipts <= b.receipts && AssetStep(a.media[id], b.media[id]) && Gone(b.media[id].status)
    requires b.deletions[id].owner == b.media[id].owner && AssetOk(b, id)
    ensures MediaOk(b) && MediaStep(a, b)
  {
    forall i | i in b.media ensures AssetOk(b, i) && AssetStep(a.media[i], b.media[i]) {
      assert AssetOk(a, i);
    }
  }

  lemma RequestDeletionKeeps(db: MediaDb, id: Id, account: Option<Id>, at: Time)
    requires MediaOk(db) && id in db.media && !Gone(db.media[id].status)
    ensures var b := RequestDeletion(db, id, account, at); MediaOk(b) && MediaStep(db, b)
  {
    var b := RequestDeletion(db, id, account, at);
    assert AssetOk(db, id);
    GoneRowsKeep(db, b, id);
  }

  lemma FinishDeletionKeeps(db: MediaDb, event: Id, id: Id, at: Time)
    requires MediaOk(db) && FinishDeletion(db, event, id, at).Ok?
    ensures var b := FinishDeletion(db, event, id, at).value;
            && MediaOk(b) && MediaStep(db, b) && b.media[id].status.Deleted? && b.consents == db.consents
  {
    var b := FinishDeletion(db, event, id, at).value;
    assert AssetOk(db, id);
    GoneRowsKeep(db, b, id);
  }

  lemma EraseKeepsFiles(f: MediaDb, user: Id)
    requires MediaOk(f)
    ensures MediaOk(EraseFiles(f, user))
  {
    var b := EraseFiles(f, user);
    forall m | m in b.media ensures AssetOk(b, m) { assert AssetOk(f, m); }
  }
}
