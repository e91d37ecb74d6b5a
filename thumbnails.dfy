/** `handlerUploadThumbnail` (POST /videos/:videoId/thumbnail): checks the
    request, writes the uploaded image into the served assets directory,
    points the record's `thumbnailURL` at it and writes the record back.
 */
module Thumbnails {
  import opened Wrappers
  import opened Steps
  import opened Api

  const InvalidIdMessage := "Invalid video ID"
  const NotFoundMessage := "Couldn't find video"
  const ForbiddenMessage := "Not authorized to update this video"
  const MissingFileMessage := "Thumbnail file missing"
  const TooLargeMessage := "Thumbnail file size exceeds the maximum allowed size of 10MB"
  const MissingTypeMessage := "Missing Content-Type for thumbnail"
  const WrongTypeMessage := "Thumbnail is not a png or jpeg file"

  /** The multipart field that carries the upload. */
  const FieldName := "thumbnail"

  /** The media types the handler accepts. */
  const ImageTypes: set<string> := {"image/png", "image/jpeg"}

  /** The guards of the handler, in the handler's own order: here existence
      is tested before ownership. */
  function Guards(req: Request, auth: Auth, lookup: Option<VideoRecord>, faults: Faults): (v: Verdict)
    ensures v.Pass? ==> lookup == Some(v.accepted.record)
    ensures v.Pass? ==> RequestFile(req, FieldName) == Some(v.accepted.file)
  {
    if !Truthy(req.videoId) then Reject(BadRequest(InvalidIdMessage))
    else if auth.Unauthenticated? then Reject(AuthFailed)
    else if faults.recordLookup then Reject(LookupFailed)
    else if lookup.None? then Reject(NotFound(NotFoundMessage))
    else if auth.userID != Some(lookup.value.userID) then Reject(Forbidden(ForbiddenMessage))
    else if req.form.None? then Reject(MalformedForm)
    else if FormFile(req.form.value, FieldName).None? then Reject(BadRequest(MissingFileMessage))
    else
      var file := FormFile(req.form.value, FieldName).value;
      if file.Size() > MaxThumbnailUploadSize then Reject(BadRequest(TooLargeMessage))
      else if file.mediaType == "" then Reject(BadRequest(MissingTypeMessage))
      else if !(file.mediaType == "image/png" || file.mediaType == "image/jpeg") then
        Reject(BadRequest(WrongTypeMessage))
      else Pass(Accepted(lookup.value, file))
  }

  /** The same guards as an ordered list of independent tests. */
  function Checks(req: Request, auth: Auth, lookup: Option<VideoRecord>, faults: Faults): seq<Check<ApiError>>
  {
    var file := RequestFile(req, FieldName);
    [ Check(Truthy(req.videoId), BadRequest(InvalidIdMessage)),
      Check(auth.Authenticated?, AuthFailed),
      Check(!faults.recordLookup, LookupFailed),
      Check(lookup.Some?, NotFound(NotFoundMessage)),
      Check(auth.Authenticated? && auth.userID == OwnerOf(lookup), Forbidden(ForbiddenMessage)),
      Check(req.form.Some?, MalformedForm),
      Check(file.Some?, BadRequest(MissingFileMessage)),
      Check(file.Some? && file.value.Size() <= MaxThumbnailUploadSize, BadRequest(TooLargeMessage)),
      Check(file.Some? && file.value.mediaType != "", BadRequest(MissingTypeMessage)),
      Check(file.Some? && file.value.mediaType in ImageTypes, BadRequest(WrongTypeMessage)) ]
  }

  /** The handler reports exactly the error of the first test in `Checks` that
      the request fails, and lets the request through when it fails none. */
  lemma GuardsFollowChecks(req: Request, auth: Auth, lookup: Option<VideoRecord>, faults: Faults)
    ensures GuardError(Guards(req, auth, lookup, faults)) == FirstError(Checks(req, auth, lookup, faults))
  {
    var cs := Checks(req, auth, lookup, faults);
    var file := RequestFile(req, FieldName);
    if !Truthy(req.videoId) {
      FirstErrorAt(cs, 0);
    } else if auth.Unauthenticated? {
      FirstErrorAt(cs, 1);
    } else if faults.recordLookup {
      FirstErrorAt(cs, 2);
    } else if lookup.None? {
      FirstErrorAt(cs, 3);
    } else if auth.userID != Some(lookup.value.userID) {
      FirstErrorAt(cs, 4);
    } else if req.form.None? {
      FirstErrorAt(cs, 5);
    } else if file.None? {
      FirstErrorAt(cs, 6);
    } else if file.value.Size() > MaxThumbnailUploadSize {
      FirstErrorAt(cs, 7);
    } else if file.value.mediaType == "" {
      FirstErrorAt(cs, 8);
    } else if file.value.mediaType !in ImageTypes {
      FirstErrorAt(cs, 9);
    } else {
      FirstErrorNoneIffAllPass(cs);
    }
  }

  /** The caller owns an existing record named by a usable id: the request
      gets past the first five guards and on to the multipart body. */
  predicate Authorized(req: Request, auth: Auth, lookup: Option<VideoRecord>, faults: Faults)
  {
    Truthy(req.videoId) && auth.Authenticated? && !faults.recordLookup && lookup.Some? && auth.userID == Some(lookup.value.userID)
  }

  /** Without a usable video id (absent or empty) the request is refused
      first, whoever sends it and whatever the record store holds. */
  lemma MissingIdRejectedFirst(req: Request, auth: Auth, lookup: Option<VideoRecord>, faults: Faults)
    requires !Truthy(req.videoId)
    ensures Guards(req, auth, lookup, faults) == Reject(BadRequest(InvalidIdMessage))
  {
  }

  /** A caller whose token does not validate is refused before the record
      matters. */
  lemma UnauthenticatedRejectedBeforeLookup(req: Request, lookup: Option<VideoRecord>, faults: Faults)
    requires Truthy(req.videoId)
    ensures Guards(req, Unauthenticated, lookup, faults) == Reject(AuthFailed)
  {
  }

  /** A lookup that throws is reported once the token has validated, before
      existence or ownership matter. */
  lemma LookupFailureReported(req: Request, userID: Option<string>, lookup: Option<VideoRecord>, faults: Faults)
    requires Truthy(req.videoId) && faults.recordLookup
    ensures Guards(req, Authenticated(userID), lookup, faults) == Reject(LookupFailed)
  {
  }

  /** Existence is tested before ownership: any authenticated caller naming a
      record that does not exist is told NotFound. */
  lemma MissingRecordIsNotFound(req: Request, userID: Option<string>, faults: Faults)
    requires Truthy(req.videoId) && !faults.recordLookup
    ensures Guards(req, Authenticated(userID), None, faults) == Reject(NotFound(NotFoundMessage))
  {
  }

  /** An existing record owned by someone else is Forbidden. */
  lemma OtherOwnerIsForbidden(req: Request, userID: Option<string>, record: VideoRecord, faults: Faults)
    requires Truthy(req.videoId) && !faults.recordLookup
    requires userID != Some(record.userID)
    ensures Guards(req, Authenticated(userID), Some(record), faults) == Reject(Forbidden(ForbiddenMessage))
  {
  }

  /** An owner whose body has no `thumbnail` file part (absent, or a text
      field) is refused. */
  lemma MissingFileRejected(req: Request, auth: Auth, lookup: Option<VideoRecord>, faults: Faults)
    requires Authorized(req, auth, lookup, faults)
    requires req.form.Some? && FormFile(req.form.value, FieldName).None?
    ensures Guards(req, auth, lookup, faults) == Reject(BadRequest(MissingFileMessage))
  {
  }

  /** The size ceiling is exact: a part is refused for its size if and only if
      it is larger than 10 MiB, and the size test comes before the media-type
      tests. */
  lemma SizeCeiling(req: Request, auth: Auth, lookup: Option<VideoRecord>, faults: Faults, file: File)
    requires Authorized(req, auth, lookup, faults)
    requires RequestFile(req, FieldName) == Some(file)
    ensures Guards(req, auth, lookup, faults) == Reject(BadRequest(TooLargeMessage))
        <==> file.Size() > MaxThumbnailUploadSize
  {
  }

  /** Within the ceiling, the media type decides: empty is a missing
      Content-Type, and exactly "image/png" and "image/jpeg" are accepted,
      also at exactly 10 MiB. */
  lemma MediaTypeRules(req: Request, auth: Auth, lookup: Option<VideoRecord>, faults: Faults, file: File)
    requires Authorized(req, auth, lookup, faults)
    requires RequestFile(req, FieldName) == Some(file)
    requires file.Size() <= MaxThumbnailUploadSize
    ensures file.mediaType == "" ==> Guards(req, auth, lookup, faults) == Reject(BadRequest(MissingTypeMessage))
    ensures file.mediaType != "" && file.mediaType !in ImageTypes ==>
              Guards(req, auth, lookup, faults) == Reject(BadRequest(WrongTypeMessage))
    ensures file.mediaType in ImageTypes ==> Guards(req, auth, lookup, faults) == Pass(Accepted(lookup.value, file))
  {
  }

  /** A request gets through exactly when its owner sends a `thumbnail` file
      of at most 10 MiB declared as a png or a jpeg. */
  lemma AcceptsExactly(req: Request, auth: Auth, lookup: Option<VideoRecord>, faults: Faults)
    ensures Guards(req, auth, lookup, faults).Pass? <==>
      Authorized(req, auth, lookup, faults) && RequestFile(req, FieldName).Some? &&
      RequestFile(req, FieldName).value.Size() <= MaxThumbnailUploadSize &&
      RequestFile(req, FieldName).value.mediaType in ImageTypes
  {
  }

  // ----- effect tail -----

  /** The one name used for the asset file and its URL: the random `fileId`
      followed by the media type's extension. */
  function Filename(assets: Assets, file: File, fileId: string): string
  {
    fileId + assets.mediaTypeToExt(file.mediaType)
  }

  /** The effects of an accepted upload, in the order the handler runs them. */
  function Plan(assets: Assets, record: VideoRecord, file: File, fileId: string): seq<Event>
  {
    var name := Filename(assets, file, fileId);
    var url := assets.assetURL(name);
    [ WriteDisk(assets.assetDiskPath(name), file.content),
      SetThumbnailURL(url),
      UpdateVideo(record.(thumbnailURL := Some(url))) ]
  }

  /** Which effects of the plan run, for each combination of failing calls. */
  lemma PerformedCases(assets: Assets, record: VideoRecord, file: File, fileId: string, faults: Faults)
    ensures var plan := Plan(assets, record, file, fileId);
      Performed(plan, faults) ==
        if faults.diskWrite then []
        else if faults.recordUpdate then plan[..2]
        else plan
  {
    var plan := Plan(assets, record, file, fileId);
    if faults.diskWrite {
      CompletedAt(plan, faults, 0);
    } else if faults.recordUpdate {
      CompletedAt(plan, faults, 2);
    } else {
      CompletedAt(plan, faults, 3);
    }
  }

  /** The loaded record changes in `thumbnailURL` only, and only once the
      asset file has been written: the in-memory record after the effects
      that ran. */
  lemma RecordChangesOnlyThumbnailURL(assets: Assets, record: VideoRecord, file: File, fileId: string, faults: Faults)
    ensures Replay(record, Performed(Plan(assets, record, file, fileId), faults)) ==
      if faults.diskWrite then record
      else record.(thumbnailURL := Some(assets.assetURL(Filename(assets, file, fileId))))
  {
    var plan := Plan(assets, record, file, fileId);
    ReplayStep(record, plan, 0);
    ReplayStep(record, plan, 1);
    ReplayStep(record, plan, 2);
    assert plan[..3] == plan;
    PerformedCases(assets, record, file, fileId, faults);
  }

  /** Whatever throws, the effects that ran are in the handler's order:
      `thumbnailURL` is set only after the asset file was written under the
      name the URL is built from, and the record is written back after that. */
  lemma EffectOrder(assets: Assets, record: VideoRecord, file: File, fileId: string, faults: Faults)
    ensures var name := Filename(assets, file, fileId);
      var url := assets.assetURL(name);
      var t := Performed(Plan(assets, record, file, fileId), faults);
      && HappensBefore(t, WriteDisk(assets.assetDiskPath(name), file.content), SetThumbnailURL(url))
      && HappensBefore(t, SetThumbnailURL(url), UpdateVideo(record.(thumbnailURL := Some(url))))
  {
    var plan := Plan(assets, record, file, fileId);
    var k := Completed(plan, faults);
    HappensBeforeAt(plan, plan[0], plan[1], 0, 1);
    HappensBeforeAt(plan, plan[1], plan[2], 1, 2);
    HappensBeforePrefix(plan, k, plan[0], plan[1]);
    HappensBeforePrefix(plan, k, plan[1], plan[2]);
  }

  /** The record is written back exactly once when the handler succeeds, and
      no write-back is among the effects that ran when it fails. */
  lemma UpdatedOnceOnSuccess(assets: Assets, record: VideoRecord, file: File, fileId: string, faults: Faults)
    ensures var plan := Plan(assets, record, file, fileId);
      Updates(Performed(plan, faults)) == if TailOutcome(plan, faults) == Ok then 1 else 0
    ensures var t := Performed(Plan(assets, record, file, fileId), faults);
      TailOutcome(Plan(assets, record, file, fileId), faults).Err? ==>
        forall i :: 0 <= i < |t| ==> !t[i].UpdateVideo?
  {
    var plan := Plan(assets, record, file, fileId);
    UpdatesZeroIffNone(Performed(plan, faults));
    UpdatesStep(plan, 0);
    UpdatesStep(plan, 1);
    UpdatesStep(plan, 2);
    assert plan[..3] == plan;
    PerformedCases(assets, record, file, fileId, faults);
  }

  /** What is written back differs from the loaded record in `thumbnailURL`
      alone, which then names the written asset. */
  lemma WrittenRecordDiffersOnlyInThumbnailURL(assets: Assets, record: VideoRecord, file: File, fileId: string, faults: Faults)
    ensures forall e :: e in Performed(Plan(assets, record, file, fileId), faults) && e.UpdateVideo? ==>
      && e.record.(thumbnailURL := record.thumbnailURL) == record
      && e.record.thumbnailURL == Some(assets.assetURL(Filename(assets, file, fileId)))
  {
    var plan := Plan(assets, record, file, fileId);
    forall e | e in Performed(plan, faults) && e.UpdateVideo?
      ensures e == plan[2]
    {
      assert e in plan;
    }
  }

  /** Runs the effects of an accepted upload on the loaded record `video`. */
  method Store(log: EffectLog, video: Video, assets: Assets, file: File, fileId: string, faults: Faults)
    returns (outcome: Outcome)
    modifies log, video
    ensures var plan := Plan(assets, old(video.Value()), file, fileId);
      && log.events == old(log.events) + Performed(plan, faults)
      && outcome == TailOutcome(plan, faults)
      && video.Value() == Replay(old(video.Value()), Performed(plan, faults))
  {
    PerformedCases(assets, video.Value(), file, fileId, faults);
    RecordChangesOnlyThumbnailURL(assets, video.Value(), file, fileId, faults);
    var name := Filename(assets, file, fileId);
    var assetPath := assets.assetDiskPath(name);
    var ok := log.Perform(WriteDisk(assetPath, file.content), faults);
    if !ok {
      return Err(EffectFailed(WriteDisk(assetPath, file.content)));
    }
    var url := assets.assetURL(name);
    video.thumbnailURL := Some(url);
    log.Record(SetThumbnailURL(url));
    ok := log.Perform(UpdateVideo(video.Value()), faults);
    if !ok {
      return Err(EffectFailed(UpdateVideo(video.Value())));
    }
    return Ok;
  }

  /** The whole handler: the guards, then, for an accepted request, the effect
      tail on the record the lookup returned (`video`, null when the store
      has no record with the route's id).  Whatever happens, the record keeps
      its id and its owner. */
  method HandleUpload(log: EffectLog, assets: Assets, req: Request, auth: Auth, video: Video?,
                      fileId: string, faults: Faults)
    returns (outcome: Outcome)
    modifies log, video
    ensures var v := Guards(req, auth, old(Lookup(video)), faults);
      v.Reject? ==>
        && outcome == Err(v.error)
        && log.events == old(log.events)
        && (video != null ==> video.Value() == old(video.Value()))
    ensures var v := Guards(req, auth, old(Lookup(video)), faults);
      v.Pass? ==>
        var plan := Plan(assets, v.accepted.record, v.accepted.file, fileId);
        && video != null
        && log.events == old(log.events) + Performed(plan, faults)
        && outcome == TailOutcome(plan, faults)
        && video.Value() == Replay(old(video.Value()), Performed(plan, faults))
    ensures video != null ==> video.id == old(video.id) && video.userID == old(video.userID)
  {
    var v := Guards(req, auth, Lookup(video), faults);
    if v.Reject? {
      return Err(v.error);
    }
    outcome := Store(log, video, assets, v.accepted.file, fileId, faults);
    ReplayKeepsIdentity(v.accepted.record, Performed(Plan(assets, v.accepted.record, v.accepted.file, fileId), faults));
  }
}
