/** `handlerUploadVideo` (POST /videos/:videoId): checks the request, stages the
    uploaded mp4 on local disk, uploads the staged copy to S3, points the
    record's `videoURL` at the S3 object, deletes the staged copy and writes
    the record back.
 */
module Videos {
  import opened Wrappers
  import opened Steps
  import opened Api

  const InvalidIdMessage := "Invalid video UUID"
  const ForbiddenMessage := "Not authorized to update this video"
  const NotFoundMessage := "Couldn't find video"
  const MissingFileMessage := "Video file missing"
  const TooLargeMessage := "Video size exceeds the maximum allowed size of 1GB"
  const MissingTypeMessage := "Missing Content-Type for video"
  const WrongTypeMessage := "Video is not an mp4 file"

  /** The multipart field that carries the upload. */
  const FieldName := "video"

  /** The only media type the handler accepts. */
  const Mp4 := "video/mp4"

  /** The guards of the handler, in the handler's own order.  Note that the
      ownership test runs before the existence test: `userID !== video?.userID`
      compares the caller with `undefined` when there is no record. */
  function Guards(req: Request, auth: Auth, lookup: Option<VideoRecord>, faults: Faults): (v: Verdict)
    ensures v.Pass? ==> lookup == Some(v.accepted.record)
    ensures v.Pass? ==> RequestFile(req, FieldName) == Some(v.accepted.file)
  {
    if !Truthy(req.videoId) then Reject(BadRequest(InvalidIdMessage))
    else if auth.Unauthenticated? then Reject(AuthFailed)
    else if faults.recordLookup then Reject(LookupFailed)
    else if auth.userID != OwnerOf(lookup) then Reject(Forbidden(ForbiddenMessage))
    else if lookup.None? then Reject(NotFound(NotFoundMessage))
    else if req.form.None? then Reject(MalformedForm)
    else if FormFile(req.form.value, FieldName).None? then Reject(BadRequest(MissingFileMessage))
    else
      var file := FormFile(req.form.value, FieldName).value;
      if file.Size() > MaxVideoUploadSize then Reject(BadRequest(TooLargeMessage))
      else if file.mediaType == "" then Reject(BadRequest(MissingTypeMessage))
      else if file.mediaType != Mp4 then Reject(BadRequest(WrongTypeMessage))
      else Pass(Accepted(lookup.value, file))
  }

  /** The same guards as an ordered list of independent tests. */
  function Checks(req: Request, auth: Auth, lookup: Option<VideoRecord>, faults: Faults): seq<Check<ApiError>>
  {
    var file := RequestFile(req, FieldName);
    [ Check(Truthy(req.videoId), BadRequest(InvalidIdMessage)),
      Check(auth.Authenticated?, AuthFailed),
      Check(!faults.recordLookup, LookupFailed),
      Check(auth.Authenticated? && auth.userID == OwnerOf(lookup), Forbidden(ForbiddenMessage)),
      Check(lookup.Some?, NotFound(NotFoundMessage)),
      Check(req.form.Some?, MalformedForm),
      Check(file.Some?, BadRequest(MissingFileMessage)),
      Check(file.Some? && file.value.Size() <= MaxVideoUploadSize, BadRequest(TooLargeMessage)),
      Check(file.Some? && file.value.mediaType != "", BadRequest(MissingTypeMessage)),
      Check(file.Some? && file.value.mediaType == Mp4, BadRequest(WrongTypeMessage)) ]
  }

  /** The handler reports exactly the error of the first test in `Checks` that
      the request fails, and lets the request through when it fails none. */
  lemma GuardsFollowChecks(req: Request, auth: Auth, lookup: Option<VideoRecord>, faults: Faults)
    ensures GuardError(Guards(req, auth, lookup, faults)) == FirstError(Checks(req, auth, lookup, faults))
  {
    var cs := Checks(req, auth, lookup, faults);
    var file := RequestFile(req, FieldName);
    if !Truthy(req.videoId) {
      FirstErrorAt(cs, 0);
    } else if auth.Unauthenticated? {
      FirstErrorAt(cs, 1);
    } else if faults.recordLookup {
      FirstErrorAt(cs, 2);
    } else if auth.userID != OwnerOf(lookup) {
      FirstErrorAt(cs, 3);
    } else if lookup.None? {
      FirstErrorAt(cs, 4);
    } else if req.form.None? {
      FirstErrorAt(cs, 5);
    } else if file.None? {
      FirstErrorAt(cs, 6);
    } else if file.value.Size() > MaxVideoUploadSize {
      FirstErrorAt(cs, 7);
    } else if file.value.mediaType == "" {
      FirstErrorAt(cs, 8);
    } else if file.value.mediaType != Mp4 {
      FirstErrorAt(cs, 9);
    } else {
      FirstErrorNoneIffAllPass(cs);
    }
  }

  /** The caller owns an existing record named by a usable id: the request
      gets past the first five guards and on to the multipart body. */
  predicate Authorized(req: Request, auth: Auth, lookup: Option<VideoRecord>, faults: Faults)
  {
    Truthy(req.videoId) && auth.Authenticated? && !faults.recordLookup && lookup.Some? && auth.userID == Some(lookup.value.userID)
  }

  /** Without a usable video id (absent or empty) the request is refused
      first, whoever sends it and whatever the record store holds. */
  lemma MissingIdRejectedFirst(req: Request, auth: Auth, lookup: Option<VideoRecord>, faults: Faults)
    requires !Truthy(req.videoId)
    ensures Guards(req, auth, lookup, faults) == Reject(BadRequest(InvalidIdMessage))
  {
  }

  /** A caller whose token does not validate is refused before the record
      matters. */
  lemma UnauthenticatedRejectedBeforeLookup(req: Request, lookup: Option<VideoRecord>, faults: Faults)
    requires Truthy(req.videoId)
    ensures Guards(req, Unauthenticated, lookup, faults) == Reject(AuthFailed)
  {
  }

  /** A lookup that throws is reported once the token has validated, before
      ownership or existence matter. */
  lemma LookupFailureReported(req: Request, userID: Option<string>, lookup: Option<VideoRecord>, faults: Faults)
    requires Truthy(req.videoId) && faults.recordLookup
    ensures Guards(req, Authenticated(userID), lookup, faults) == Reject(LookupFailed)
  {
  }

  /** Ownership is tested before existence: a caller with a defined user id
      who names a record that does not exist is told Forbidden, not NotFound. */
  lemma MissingRecordIsForbidden(req: Request, user: string, faults: Faults)
    requires Truthy(req.videoId) && !faults.recordLookup
    ensures Guards(req, Authenticated(Some(user)), None, faults) == Reject(Forbidden(ForbiddenMessage))
  {
  }

  /** A record owned by someone else is always Forbidden. */
  lemma OtherOwnerIsForbidden(req: Request, userID: Option<string>, record: VideoRecord, faults: Faults)
    requires Truthy(req.videoId) && !faults.recordLookup
    requires userID != Some(record.userID)
    ensures Guards(req, Authenticated(userID), Some(record), faults) == Reject(Forbidden(ForbiddenMessage))
  {
  }

  /** NotFound is reported only when the token carries no user id and the
      record does not exist, since only then does `userID !== video?.userID`
      let the request through. */
  lemma NotFoundOnlyWithoutCallerId(req: Request, auth: Auth, lookup: Option<VideoRecord>, faults: Faults)
    ensures Guards(req, auth, lookup, faults) == Reject(NotFound(NotFoundMessage))
        <==> Truthy(req.videoId) && auth == Authenticated(None) && !faults.recordLookup && lookup == None
  {
  }

  /** An owner whose body has no `video` file part (absent, or a text field) is refused. */
  lemma MissingFileRejected(req: Request, auth: Auth, lookup: Option<VideoRecord>, faults: Faults)
    requires Authorized(req, auth, lookup, faults)
    requires req.form.Some? && FormFile(req.form.value, FieldName).None?
    ensures Guards(req, auth, lookup, faults) == Reject(BadRequest(MissingFileMessage))
  {
  }

  /** The size ceiling is exact: a part is refused for its size if and only if
      it is larger than 1 GiB, and the size test comes before the media-type
      tests, so an oversized non-mp4 part reports its size. */
  lemma SizeCeiling(req: Request, auth: Auth, lookup: Option<VideoRecord>, faults: Faults, file: File)
    requires Authorized(req, auth, lookup, faults)
    requires RequestFile(req, FieldName) == Some(file)
    ensures Guards(req, auth, lookup, faults) == Reject(BadRequest(TooLargeMessage))
        <==> file.Size() > MaxVideoUploadSize
  {
  }

  /** Within the ceiling, the media type decides: empty is a missing
      Content-Type, anything but "video/mp4" is not an mp4, and "video/mp4"
      is accepted, also at exactly 1 GiB. */
  lemma MediaTypeRules(req: Request, auth: Auth, lookup: Option<VideoRecord>, faults: Faults, file: File)
    requires Authorized(req, auth, lookup, faults)
    requires RequestFile(req, FieldName) == Some(file)
    requires file.Size() <= MaxVideoUploadSize
    ensures file.mediaType == "" ==> Guards(req, auth, lookup, faults) == Reject(BadRequest(MissingTypeMessage))
    ensures file.mediaType != "" && file.mediaType != Mp4 ==>
              Guards(req, auth, lookup, faults) == Reject(BadRequest(WrongTypeMessage))
    ensures file.mediaType == Mp4 ==> Guards(req, auth, lookup, faults) == Pass(Accepted(lookup.value, file))
  {
  }

  /** A request gets through exactly when its owner sends a `video` file of
      at most 1 GiB declared as "video/mp4". */
  lemma AcceptsExactly(req: Request, auth: Auth, lookup: Option<VideoRecord>, faults: Faults)
    ensures Guards(req, auth, lookup, faults).Pass? <==>
      Authorized(req, auth, lookup, faults) && RequestFile(req, FieldName).Some? &&
      RequestFile(req, FieldName).value.Size() <= MaxVideoUploadSize &&
      RequestFile(req, FieldName).value.mediaType == Mp4
  {
  }

  // ----- effect tail -----

  /** The one name used for the staged file, the S3 key and the URL:
      the random `fileId` followed by the media type's extension. */
  function Filename(assets: Assets, file: File, fileId: string): string
  {
    fileId + assets.mediaTypeToExt(file.mediaType)
  }

  /** The effects of an accepted upload, in the order the handler runs them. */
  function Plan(assets: Assets, record: VideoRecord, file: File, fileId: string): seq<Event>
  {
    var name := Filename(assets, file, fileId);
    var staged := assets.assetDiskPath(name);
    var url := assets.s3URL(name);
    [ WriteDisk(staged, file.content),
      UploadS3(name, staged, file.mediaType),
      SetVideoURL(url),
      DeleteDisk(staged),
      UpdateVideo(record.(videoURL := Some(url))) ]
  }

  /** Which effects of the plan run, for each combination of failing calls. */
  lemma PerformedCases(assets: Assets, record: VideoRecord, file: File, fileId: string, faults: Faults)
    ensures var plan := Plan(assets, record, file, fileId);
      Performed(plan, faults) ==
        if faults.diskWrite then []
        else if faults.s3Upload then plan[..1]
        else if faults.diskDelete then plan[..3]
        else if faults.recordUpdate then plan[..4]
        else plan
  {
    var plan := Plan(assets, record, file, fileId);
    if faults.diskWrite {
      CompletedAt(plan, faults, 0);
    } else if faults.s3Upload {
      CompletedAt(plan, faults, 1);
    } else if faults.diskDelete {
      CompletedAt(plan, faults, 3);
    } else if faults.recordUpdate {
      CompletedAt(plan, faults, 4);
    } else {
      CompletedAt(plan, faults, 5);
    }
  }

  /** The loaded record changes in `videoURL` only, and only once the upload
      to S3 has completed: the in-memory record after the effects that ran. */
  lemma RecordChangesOnlyVideoURL(assets: Assets, record: VideoRecord, file: File, fileId: string, faults: Faults)
    ensures Replay(record, Performed(Plan(assets, record, file, fileId), faults)) ==
      if faults.diskWrite || faults.s3Upload then record
      else record.(videoURL := Some(assets.s3URL(Filename(assets, file, fileId))))
  {
    var plan := Plan(assets, record, file, fileId);
    PerformedCases(assets, record, file, fileId, faults);
    assert plan[..0] == [];
    ReplayStep(record, plan, 0);
    if faults.diskWrite || faults.s3Upload {
      return;
    }
    ReplayStep(record, plan, 1);
    ReplayStep(record, plan, 2);
    ReplayStep(record, plan, 3);
    if faults.diskDelete || faults.recordUpdate {
      return;
    }
    ReplayStep(record, plan, 4);
    assert plan[..5] == plan;
  }

  /** Whatever throws, the effects that ran are in the handler's order: the
      staged file is written before it is uploaded, `videoURL` is set only
      after the upload completed, and the staged copy is deleted before the
      record is written back. */
  lemma EffectOrder(assets: Assets, record: VideoRecord, file: File, fileId: string, faults: Faults)
    ensures var name := Filename(assets, file, fileId);
      var staged := assets.assetDiskPath(name);
      var url := assets.s3URL(name);
      var t := Performed(Plan(assets, record, file, fileId), faults);
      && HappensBefore(t, WriteDisk(staged, file.content), UploadS3(name, staged, file.mediaType))
      && HappensBefore(t, UploadS3(name, staged, file.mediaType), SetVideoURL(url))
      && HappensBefore(t, DeleteDisk(staged), UpdateVideo(record.(videoURL := Some(url))))
  {
    var plan := Plan(assets, record, file, fileId);
    var k := Completed(plan, faults);
    HappensBeforeAt(plan, plan[0], plan[1], 0, 1);
    HappensBeforeAt(plan, plan[1], plan[2], 1, 2);
    HappensBeforeAt(plan, plan[3], plan[4], 3, 4);
    HappensBeforePrefix(plan, k, plan[0], plan[1]);
    HappensBeforePrefix(plan, k, plan[1], plan[2]);
    HappensBeforePrefix(plan, k, plan[3], plan[4]);
  }

  /** The record is written back exactly once when the handler succeeds, and
      no write-back is among the effects that ran when it fails. */
  lemma UpdatedOnceOnSuccess(assets: Assets, record: VideoRecord, file: File, fileId: string, faults: Faults)
    ensures var plan := Plan(assets, record, file, fileId);
      Updates(Performed(plan, faults)) == if TailOutcome(plan, faults) == Ok then 1 else 0
    ensures var t := Performed(Plan(assets, record, file, fileId), faults);
      TailOutcome(Plan(assets, record, file, fileId), faults).Err? ==>
        forall i :: 0 <= i < |t| ==> !t[i].UpdateVideo?
  {
    var plan := Plan(assets, record, file, fileId);
    UpdatesZeroIffNone(Performed(plan, faults));
    UpdatesStep(plan, 0);
    UpdatesStep(plan, 1);
    UpdatesStep(plan, 2);
    UpdatesStep(plan, 3);
    UpdatesStep(plan, 4);
    assert plan[..5] == plan;
    PerformedCases(assets, record, file, fileId, faults);
  }

  /** What is written back differs from the loaded record in `videoURL`
      alone, which then names the uploaded object. */
  lemma WrittenRecordDiffersOnlyInVideoURL(assets: Assets, record: VideoRecord, file: File, fileId: string, faults: Faults)
    ensures forall e :: e in Performed(Plan(assets, record, file, fileId), faults) && e.UpdateVideo? ==>
      && e.record.(videoURL := record.videoURL) == record
      && e.record.videoURL == Some(assets.s3URL(Filename(assets, file, fileId)))
  {
    var plan := Plan(assets, record, file, fileId);
    forall e | e in Performed(plan, faults) && e.UpdateVideo?
      ensures e == plan[4]
    {
      assert e in plan;
    }
  }

  /** Cleanup is not guaranteed: when the S3 upload throws, the staged file
      has been written and is never deleted. */
  lemma StagedCopyLeftWhenUploadThrows(assets: Assets, record: VideoRecord, file: File, fileId: string, faults: Faults)
    requires !faults.diskWrite && faults.s3Upload
    ensures var name := Filename(assets, file, fileId);
      var staged := assets.assetDiskPath(name);
      var plan := Plan(assets, record, file, fileId);
      && Performed(plan, faults) == [WriteDisk(staged, file.content)]
      && TailOutcome(plan, faults) == Err(EffectFailed(UploadS3(name, staged, file.mediaType)))
  {
    PerformedCases(assets, record, file, fileId, faults);
    CompletedAt(Plan(assets, record, file, fileId), faults, 1);
  }

  /** Runs the effects of an accepted upload on the loaded record `video`. */
  method Store(log: EffectLog, video: Video, assets: Assets, file: File, fileId: string, faults: Faults)
    returns (outcome: Outcome)
    modifies log, video
    ensures var plan := Plan(assets, old(video.Value()), file, fileId);
      && log.events == old(log.events) + Performed(plan, faults)
      && outcome == TailOutcome(plan, faults)
      && video.Value() == Replay(old(video.Value()), Performed(plan, faults))
  {
    ghost var record := video.Value();
    ghost var plan := Plan(assets, record, file, fileId);
    ghost var before := log.events;
    RecordChangesOnlyVideoURL(assets, record, file, fileId, faults);
    var name := Filename(assets, file, fileId);
    var staged := assets.assetDiskPath(name);
    var ok := log.Perform(WriteDisk(staged, file.content), faults);
    if !ok {
      CompletedAt(plan, faults, 0);
      return Err(EffectFailed(WriteDisk(staged, file.content)));
    }
    assert log.events == before + plan[..1];
    ok := log.Perform(UploadS3(name, staged, file.mediaType), faults);
    if !ok {
      CompletedAt(plan, faults, 1);
      return Err(EffectFailed(UploadS3(name, staged, file.mediaType)));
    }
    var url := assets.s3URL(name);
    video.videoURL := Some(url);
    log.Record(SetVideoURL(url));
    assert log.events == before + plan[..3];
    ok := log.Perform(DeleteDisk(staged), faults);
    if !ok {
      CompletedAt(plan, faults, 3);
      return Err(EffectFailed(DeleteDisk(staged)));
    }
    assert log.events == before + plan[..4];
    ok := log.Perform(UpdateVideo(video.Value()), faults);
    if !ok {
      CompletedAt(plan, faults, 4);
      return Err(EffectFailed(UpdateVideo(video.Value())));
    }
    CompletedAt(plan, faults, 5);
    assert log.events == before + plan;
    return Ok;
  }

  /** The whole handler: the guards, then, for an accepted request, the effect
      tail on the record the lookup returned (`video`, null when the store
      has no record with the route's id).  Whatever happens, the record keeps
      its id and its owner. */
  method HandleUpload(log: EffectLog, assets: Assets, req: Request, auth: Auth, video: Video?,
                      fileId: string, faults: Faults)
    returns (outcome: Outcome)
    modifies log, video
    ensures var v := Guards(req, auth, old(Lookup(video)), faults);
      v.Reject? ==>
        && outcome == Err(v.error)
        && log.events == old(log.events)
        && (video != null ==> video.Value() == old(video.Value()))
    ensures var v := Guards(req, auth, old(Lookup(video)), faults);
      v.Pass? ==>
        var plan := Plan(assets, v.accepted.record, v.accepted.file, fileId);
        && video != null
        && log.events == old(log.events) + Performed(plan, faults)
        && outcome == TailOutcome(plan, faults)
        && video.Value() == Replay(old(video.Value()), Performed(plan, faults))
    ensures video != null ==> video.id == old(video.id) && video.userID == old(video.userID)
  {
    var v := Guards(req, auth, Lookup(video), faults);
    if v.Reject? {
      return Err(v.error);
    }
    outcome := Store(log, video, assets, v.accepted.file, fileId, faults);
    ReplayKeepsIdentity(v.accepted.record, Performed(Plan(assets, v.accepted.record, v.accepted.file, fileId), faults));
  }
}
