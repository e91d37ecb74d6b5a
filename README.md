# Upload handlers of a video-hosting API, modelled in Dafny

The API has two upload routes. `POST /videos/:videoId` takes a multipart field
`video`. `POST /videos/:videoId/thumbnail` takes a multipart field `thumbnail`.
Each handler first runs a fixed sequence of guards, and the first one that fails
throws:

1. the route id is present and non-empty,
2. the bearer token validates,
3. the record lookup does not throw,
4. the record exists and the caller owns it (in an order that differs between the two handlers),
5. the body parses as a form and has a file part under the expected name,
6. the file is within the size ceiling (1 GiB for video, 10 MiB for thumbnails),
7. the declared media type is present and allowed (`video/mp4`, or `image/png` / `image/jpeg`).

Then each handler runs an ordered tail of effects on the record loaded from the store:

- The video handler writes the upload to a local file and uploads that file to S3 under the same name. It sets `videoURL` to the S3 URL, deletes the local file and writes the record back.
- The thumbnail handler writes the upload into the assets directory. It sets `thumbnailURL` to the asset URL and writes the record back.

Layout:

- `wrappers.dfy`, module `Wrappers`: the `Option` type, for every value that may be undefined.
- `steps.dfy`, module `Steps`: the early-exit rule, stated once. An ordered list of checks reports the error of its first failing check (`FirstFailing`, `FirstError`).
- `api.dfy`, module `Api`: what both handlers share:
  - the request, the caller identity, the video record and the error kinds;
  - the effect events, and the rule that an effect tail stops at the first call that throws (`Completed`, `Performed`, `TailOutcome`);
  - the record's in-memory state derived from the events (`Replay`);
  - the `Video` object the lookup returns;
  - the `EffectLog` that collects the effects of a request.
- `videos.dfy`, module `Videos`, and `thumbnails.dfy`, module `Thumbnails`: one module per handler. Each has:
  - `Guards`: the guards as a function, with the source's branches in the source's order;
  - `Checks`: the same guards as an ordered check list, with `GuardsFollowChecks` proving that the two agree on every input;
  - one lemma per guard property;
  - `Plan`: the effect tail as a list of events;
  - `Store`: the imperative tail, on a `Video` object and the log;
  - `HandleUpload`: the whole handler;
  - lemmas about the effects that run, for every combination of failing I/O calls.

Collaborators whose code is not part of this model are inputs:

- **Token checks.** Token extraction and validation yield `Auth`: either a failure or the token's user id. That id may be undefined.
- **Record lookup.** The lookup yields `Option<VideoRecord>` for the guards and a `Video?` object for the handler.
- **Asset helpers.** `mediaTypeToExt`, `getAssetDiskPath`, `getS3URL` and `getAssetURL` are the uninterpreted function fields of `Assets`.
- **Random file id.** The base64url-encoded random bytes are a string parameter, `fileId`.
- **Failing I/O calls.** `Faults` says whether each of these throws: the record lookup, the disk write, the S3 upload, the disk delete and the record write.

Points about the code that the model makes explicit:

- **S3 key.** The video's S3 key is the random file name, the same name the staged file and the URL use (src/api/videos.ts:53-63). The key has no prefix.
- **Cleanup.** The staged file is deleted only after the S3 upload completes, and there is no `finally` (src/api/videos.ts:56-66). `Videos.StagedCopyLeftWhenUploadThrows` states the consequence: a failed upload leaves the staged copy on disk.
- **Check order.** The video handler tests ownership before existence (src/api/videos.ts:23-28). So a caller with a user id who names a missing record gets Forbidden, not NotFound. The thumbnail handler tests existence first (src/api/thumbnails.ts:20-25).
- **Lookup failure.** `getVideo` runs after the token check and before both record tests. When it throws, that error is what the handler reports (`LookupFailed`).
- **Thumbnail storage.** The thumbnail handler writes the image to a file in the assets directory and stores that file's URL (src/api/thumbnails.ts:53-57).

## Model

| member | source | states |
|---|---|---|
| `Steps.FirstFailing` | src/api/videos.ts:15-49 | the position it returns is in range, every earlier step holds and the step at that position fails: the first failing step decides |
| `Steps.FirstErrorAt` | src/api/videos.ts:15-49 | if check k fails and every check before k passes, the reported error is k's, whatever the later checks say |
| `Steps.FirstErrorNoneIffAllPass` | src/api/thumbnails.ts:12-47 | an ordered check list reports no error exactly when every check passes |
| `Api.Completed` | src/api/videos.ts:55-67 | every effect before the returned position completes, and the effect at that position throws |
| `Api.Performed` | src/api/videos.ts:55-67 | the effects that run form a prefix of the plan, none of them threw, and the prefix stops short of the plan only at an effect that throws |
| `Api.TailOutcome` | src/api/videos.ts:55-69 | the tail answers 200 exactly when the whole plan ran; otherwise it reports the first effect of the plan that threw, the one right after those that ran |
| `Api.ReplayKeepsIdentity` | src/api/videos.ts:64 | replaying the effects never changes the record's id or owner; only its URL fields change |
| `Api.HappensBeforePrefix` | src/api/videos.ts:55-67 | an ordering between two effects that holds in the plan also holds in whatever prefix ran before a throw |
| `Api.EffectLog.Perform` | src/api/videos.ts:56 | an I/O call that completes is appended to the log; one that throws leaves the log unchanged |
| `Videos.Guards` | src/api/videos.ts:11-49 | an accepted request carries the looked-up record and the `video` file part |
| `Videos.GuardsFollowChecks` | src/api/videos.ts:15-49 | on every input, the handler reports the error of the first failing check in its order: id, auth, lookup, ownership, existence, body, part, size, empty type, mp4 |
| `Videos.MissingIdRejectedFirst` | src/api/videos.ts:13-17 | an absent or empty id gives BadRequest "Invalid video UUID", whatever the auth and the lookup |
| `Videos.UnauthenticatedRejectedBeforeLookup` | src/api/videos.ts:19-22 | with a usable id, a failed token check is reported whatever the lookup returned |
| `Videos.LookupFailureReported` | src/api/videos.ts:19-25 | with a usable id and a validated token, a lookup that throws is reported whatever the record and the caller id |
| `Videos.MissingRecordIsForbidden` | src/api/videos.ts:22-28 | a caller with a defined user id who names a missing record gets Forbidden, not NotFound |
| `Videos.OtherOwnerIsForbidden` | src/api/videos.ts:22-25 | a record owned by anyone but the caller gives Forbidden |
| `Videos.NotFoundOnlyWithoutCallerId` | src/api/videos.ts:23-28 | NotFound if and only if the id is usable, the token's user id is undefined and no record exists |
| `Videos.MissingFileRejected` | src/api/videos.ts:30-34 | an owner without a `video` file part gets BadRequest "Video file missing" |
| `Videos.SizeCeiling` | src/api/videos.ts:37-49 | the size error if and only if the part exceeds 1073741824 bytes, whatever its media type; exactly the cap passes |
| `Videos.MediaTypeRules` | src/api/videos.ts:43-49 | within the cap, an empty type gives "Missing Content-Type", any other non-mp4 type gives "not an mp4", and `video/mp4` is accepted |
| `Videos.AcceptsExactly` | src/api/videos.ts:15-49 | accepted if and only if the owner sends a `video` file of at most 1 GiB typed `video/mp4` |
| `Videos.Filename` | src/api/videos.ts:51-53 | the one name for the staged file, the S3 key and the URL: the random id followed by the media type's extension |
| `Videos.Plan` | src/api/videos.ts:51-67 | the effect tail in the handler's order: stage to disk, upload under the name, set `videoURL`, delete the staged copy, write the record back |
| `Videos.PerformedCases` | src/api/videos.ts:55-67 | the effects that run: none on a disk failure, the disk write alone on an upload failure, up to the URL on a delete failure, all but the record write on a store failure, and all of them otherwise |
| `Videos.RecordChangesOnlyVideoURL` | src/api/videos.ts:58-64 | the record changes only in `videoURL`, only once the S3 upload completed, and then to the S3 URL of the uploaded name |
| `Videos.EffectOrder` | src/api/videos.ts:55-67 | whatever throws: the disk write precedes the upload of the same file under the same name, the URL is set only after the upload, and the delete precedes the record write |
| `Videos.UpdatedOnceOnSuccess` | src/api/videos.ts:55-67 | the record is written exactly once when every effect completes, and no write-back is among the effects that ran when one threw |
| `Videos.WrittenRecordDiffersOnlyInVideoURL` | src/api/videos.ts:63-67 | a written record differs from the loaded one only in `videoURL`, which is the S3 URL of the file name |
| `Videos.StagedCopyLeftWhenUploadThrows` | src/api/videos.ts:55-66 | when the upload throws, the staged file has been written and is not deleted, and the error names the upload |
| `Videos.Store` | src/api/videos.ts:51-67 | the log gains exactly the effects of the plan that ran, the outcome is the tail's, and the object holds the record those effects leave |
| `Videos.HandleUpload` | src/api/videos.ts:11-69 | a refused request returns the guard's error, logs nothing and leaves the record unchanged; an accepted one runs the tail on the looked-up record; the record keeps its id and owner either way |
| `Thumbnails.Guards` | src/api/thumbnails.ts:10-47 | an accepted request carries the looked-up record and the `thumbnail` file part |
| `Thumbnails.GuardsFollowChecks` | src/api/thumbnails.ts:12-47 | on every input, the handler reports the error of the first failing check in its order: id, auth, lookup, existence, ownership, body, part, size, empty type, png or jpeg |
| `Thumbnails.MissingIdRejectedFirst` | src/api/thumbnails.ts:11-14 | an absent or empty id gives BadRequest "Invalid video ID", whatever the auth and the lookup |
| `Thumbnails.UnauthenticatedRejectedBeforeLookup` | src/api/thumbnails.ts:16-19 | with a usable id, a failed token check is reported whatever the lookup returned |
| `Thumbnails.LookupFailureReported` | src/api/thumbnails.ts:16-22 | with a usable id and a validated token, a lookup that throws is reported whatever the record and the caller id |
| `Thumbnails.MissingRecordIsNotFound` | src/api/thumbnails.ts:19-22 | any authenticated caller naming a missing record gets NotFound |
| `Thumbnails.OtherOwnerIsForbidden` | src/api/thumbnails.ts:23-25 | an existing record owned by anyone but the caller gives Forbidden |
| `Thumbnails.MissingFileRejected` | src/api/thumbnails.ts:27-31 | an owner without a `thumbnail` file part gets BadRequest "Thumbnail file missing" |
| `Thumbnails.SizeCeiling` | src/api/thumbnails.ts:33-47 | the size error if and only if the part exceeds 10485760 bytes, whatever its media type; exactly the cap passes |
| `Thumbnails.MediaTypeRules` | src/api/thumbnails.ts:41-47 | within the cap, an empty type gives "Missing Content-Type", and exactly `image/png` and `image/jpeg` are accepted |
| `Thumbnails.AcceptsExactly` | src/api/thumbnails.ts:12-47 | accepted if and only if the owner sends a `thumbnail` file of at most 10 MiB typed png or jpeg |
| `Thumbnails.Filename` | src/api/thumbnails.ts:49-51 | the one name for the asset file and its URL: the random id followed by the media type's extension |
| `Thumbnails.Plan` | src/api/thumbnails.ts:49-59 | the effect tail in the handler's order: write the asset file, set `thumbnailURL`, write the record back |
| `Thumbnails.PerformedCases` | src/api/thumbnails.ts:53-59 | the effects that run: none on a disk failure, all but the record write on a store failure, and all of them otherwise |
| `Thumbnails.RecordChangesOnlyThumbnailURL` | src/api/thumbnails.ts:54-57 | the record changes only in `thumbnailURL`, only once the asset file was written, and then to the asset URL of the same file name |
| `Thumbnails.EffectOrder` | src/api/thumbnails.ts:53-59 | whatever throws: the asset file is written under the URL's file name before the URL is set, and the URL is set before the record write |
| `Thumbnails.UpdatedOnceOnSuccess` | src/api/thumbnails.ts:53-59 | the record is written exactly once when every effect completes, and no write-back is among the effects that ran when one threw |
| `Thumbnails.WrittenRecordDiffersOnlyInThumbnailURL` | src/api/thumbnails.ts:56-59 | a written record differs from the loaded one only in `thumbnailURL`, which is the asset URL of the file name |
| `Thumbnails.Store` | src/api/thumbnails.ts:49-59 | the log gains exactly the effects of the plan that ran, the outcome is the tail's, and the object holds the record those effects leave |
| `Thumbnails.HandleUpload` | src/api/thumbnails.ts:10-61 | a refused request returns the guard's error, logs nothing and leaves the record unchanged; an accepted one runs the tail on the looked-up record; the record keeps its id and owner either way |

## Left out

- **Process configuration.** Reading environment variables, opening the database and constructing the S3 client (`src/config.ts`) are configuration, not upload logic. The configuration reaches the model only through the `Assets` functions.
- **Token extraction and validation.** The authentication module is not part of this model. Its result is the input `Auth`, and its thrown errors are the single kind `AuthFailed`.
- **SQL in the record lookup and the record write.** The database module is not part of this model. The lookup is an input: the record it returns, or `Faults.recordLookup` when it throws. A thrown lookup is the single error `LookupFailed`. The write is the `UpdateVideo` event carrying the record written.
- **Record fields.** A video record's other columns are not part of this model. The handlers neither read nor write them.
- **Asset helpers.** The assets module is not part of this model. Its four helpers are uninterpreted functions, so nothing is claimed about the extensions, paths or URLs they produce.
- **Randomness.** The 32 random bytes and their base64url encoding are the arbitrary string `fileId`. So the model cannot state that two uploads get distinct names.
- **Bytes held by a stored object.** Nothing is claimed about which object a URL retrieves: that depends on the uninterpreted helpers and on the servers.
- **Multipart parsing.** A form is a map with one value per field name. Repeated fields, where `formData.get` returns the first, are not modelled. A body that fails to parse is the single error `MalformedForm`.
- **Response formatting and status codes.** `respondWithJSON` and the mapping from error classes to HTTP statuses live in modules outside this model. A handler's result is `Ok` or the error it throws.
- **Partial effects.** A call that throws is modelled as having no effect. A partly written file is not represented.
- **Async interleaving.** Concurrent requests on the same record are not modelled: the handlers await each call in turn, and the model runs the effects in that order.
