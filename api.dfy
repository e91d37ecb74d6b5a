/** What the two upload handlers share: the request as the handlers see it, the
    video record and the object the record store hands out for it, the errors
    a handler throws, and the effects it performs, written as events on a log.

    Collaborators whose code is not part of this model appear only through
    their results: the caller identity that token validation yields (`Auth`),
    the record that the lookup yields (an `Option<VideoRecord>` or a `Video?`),
    the asset helpers (`Assets`, uninterpreted functions), the random file id
    (a string parameter) and whether each I/O call throws (`Faults`).
 */
module Api {
  import opened Wrappers
  import opened Steps

  newtype byte = x: int | 0 <= x < 256

  /** The video handler's ceiling, `1 << 30` bytes (1 GiB). */
  const MaxVideoUploadSize: nat := 1073741824

  /** The thumbnail handler's ceiling, `10 << 20` bytes (10 MiB). */
  const MaxThumbnailUploadSize: nat := 10485760

  /** A multipart file part: its bytes and its declared media type (`file.type`,
      which is the empty string when the client sent none). */
  datatype File = File(content: seq<byte>, mediaType: string)
  {
    /** `file.size`: the number of bytes in the part. */
    function Size(): nat { |content| }
  }

  /** A value of a multipart form field: plain text or a file. */
  datatype FormValue = Text(text: string) | Upload(file: File)

  /** The request as the handlers read it: the `videoId` route parameter
      (None when the route has none) and the parsed multipart body (None when
      `req.formData()` rejects the body). */
  datatype Request = Request(videoId: Option<string>, form: Option<map<string, FormValue>>)

  /** What bearer-token extraction and JWT validation yield: a failure (either
      of them throws), or the user id carried by the token, which may be
      undefined (None). */
  datatype Auth = Unauthenticated | Authenticated(userID: Option<string>)

  /** The fields of a video record that the handlers read or write. */
  datatype VideoRecord = VideoRecord(
    id: string,
    userID: string,
    thumbnailURL: Option<string>,
    videoURL: Option<string>)

  /** The effects the handlers perform, in the order they perform them:
      writing a file to local disk, uploading a local file to S3 under a key
      with a content type, assigning one of the URL fields of the in-memory
      record, deleting a local file, and writing the record back to the store. */
  datatype Event =
    | WriteDisk(path: string, content: seq<byte>)
    | UploadS3(key: string, source: string, contentType: string)
    | SetVideoURL(url: string)
    | SetThumbnailURL(url: string)
    | DeleteDisk(path: string)
    | UpdateVideo(record: VideoRecord)

  /** Why a handler does not answer 200. */
  datatype ApiError =
    | BadRequest(message: string)   // BadRequestError
    | NotFound(message: string)     // NotFoundError
    | Forbidden(message: string)    // UserForbiddenError
    | AuthFailed                    // thrown by token extraction or validation
    | LookupFailed                  // thrown by the record lookup
    | MalformedForm                 // req.formData() rejected the body
    | EffectFailed(effect: Event)   // that I/O call threw

  /** A handler either answers 200 with an empty body or throws. */
  datatype Outcome = Ok | Err(error: ApiError)

  /** Which I/O calls throw on this request: the record lookup, and the
      calls of the effect tails. */
  datatype Faults = Faults(recordLookup: bool, diskWrite: bool, s3Upload: bool, diskDelete: bool, recordUpdate: bool)

  /** The helpers of the assets module, uninterpreted: `mediaTypeToExt`,
      `getAssetDiskPath`, `getS3URL` and `getAssetURL`, each with the
      configuration already applied. */
  datatype Assets = Assets(
    mediaTypeToExt: string -> string,
    assetDiskPath: string -> string,
    s3URL: string -> string,
    assetURL: string -> string)

  /** JavaScript truthiness of an optional string: neither undefined nor "". */
  predicate Truthy(s: Option<string>)
  {
    s.Some? && s.value != ""
  }

  /** `formData.get(name) instanceof File`, giving the file when it is one. */
  function FormFile(form: map<string, FormValue>, name: string): Option<File>
  {
    if name in form && form[name].Upload? then Some(form[name].file) else None
  }

  /** The file part `name` of a request whose body parsed, if there is one. */
  function RequestFile(req: Request, name: string): Option<File>
  {
    if req.form.Some? then FormFile(req.form.value, name) else None
  }

  /** `video?.userID`: the owner of the looked-up record, undefined when there is none. */
  function OwnerOf(lookup: Option<VideoRecord>): Option<string>
  {
    if lookup.Some? then Some(lookup.value.userID) else None
  }

  /** What a guard sequence hands on to the effect tail when every guard passes. */
  datatype Accepted = Accepted(record: VideoRecord, file: File)

  /** The error a guard sequence reports, None when the request got through. */
  function GuardError(r: Verdict): (e: Option<ApiError>)
    ensures e.None? <==> r.Pass?
  {
    if r.Reject? then Some(r.error) else None
  }

  /** The result of a guard sequence. */
  datatype Verdict = Pass(accepted: Accepted) | Reject(error: ApiError)

  // ----- effect tails -----

  /** Whether performing `e` throws under `faults`; setting a field of the
      in-memory record never does. */
  predicate Fails(e: Event, faults: Faults)
  {
    match e
    case WriteDisk(_, _) => faults.diskWrite
    case UploadS3(_, _, _) => faults.s3Upload
    case SetVideoURL(_) => false
    case SetThumbnailURL(_) => false
    case DeleteDisk(_) => faults.diskDelete
    case UpdateVideo(_) => faults.recordUpdate
  }

  /** For each planned effect, whether it completes. */
  function Survives(plan: seq<Event>, faults: Faults): seq<bool>
  {
    seq(|plan|, i requires 0 <= i < |plan| => !Fails(plan[i], faults))
  }

  /** How many planned effects complete before the first one that throws. */
  function Completed(plan: seq<Event>, faults: Faults): (k: nat)
    ensures k <= |plan|
    ensures forall i :: 0 <= i < k ==> !Fails(plan[i], faults)
    ensures k < |plan| ==> Fails(plan[k], faults)
  {
    var ok := Survives(plan, faults);
    assert forall i :: 0 <= i < |plan| ==> ok[i] == !Fails(plan[i], faults);
    FirstFailing(ok)
  }

  /** The number of completed effects is the position of the first effect that throws. */
  lemma CompletedAt(plan: seq<Event>, faults: Faults, k: nat)
    requires k <= |plan|
    requires forall i :: 0 <= i < k ==> !Fails(plan[i], faults)
    requires k < |plan| ==> Fails(plan[k], faults)
    ensures Completed(plan, faults) == k
  {
    FirstFailingUnique(Survives(plan, faults), k);
  }

  /** The effects of `plan` that actually happen: those before the first throw. */
  function Performed(plan: seq<Event>, faults: Faults): (done: seq<Event>)
    ensures |done| <= |plan| && done == plan[..|done|]
    ensures forall e :: e in done ==> !Fails(e, faults)
    ensures |done| < |plan| ==> Fails(plan[|done|], faults)
  {
    plan[..Completed(plan, faults)]
  }

  /** How a tail ends: 200 when every effect completes, otherwise the first
      effect that threw. */
  function TailOutcome(plan: seq<Event>, faults: Faults): (o: Outcome)
    ensures o == Ok <==> Performed(plan, faults) == plan
    ensures o.Err? ==> var k := |Performed(plan, faults)|;
      k < |plan| && o == Err(EffectFailed(plan[k])) && Fails(plan[k], faults)
  {
    var k := Completed(plan, faults);
    if k == |plan| then Ok else Err(EffectFailed(plan[k]))
  }

  /** The change one event makes to the in-memory record. */
  function Apply(r: VideoRecord, e: Event): VideoRecord
  {
    match e
    case SetVideoURL(url) => r.(videoURL := Some(url))
    case SetThumbnailURL(url) => r.(thumbnailURL := Some(url))
    case _ => r
  }

  /** The in-memory record after the events `es`, starting from `r`. */
  function Replay(r: VideoRecord, es: seq<Event>): VideoRecord
    decreases |es|
  {
    if es == [] then r else Apply(Replay(r, es[..|es| - 1]), es[|es| - 1])
  }

  /** Replaying a trace never changes the record's identity or its owner. */
  lemma {:induction false} ReplayKeepsIdentity(r: VideoRecord, es: seq<Event>)
    ensures Replay(r, es).id == r.id && Replay(r, es).userID == r.userID
    decreases |es|
  {
    if es != [] {
      ReplayKeepsIdentity(r, es[..|es| - 1]);
    }
  }

  /** Replaying one more event of a plan applies it to the replayed record. */
  lemma ReplayStep(r: VideoRecord, plan: seq<Event>, k: nat)
    requires k < |plan|
    ensures Replay(r, plan[..k + 1]) == Apply(Replay(r, plan[..k]), plan[k])
  {
    assert plan[..k + 1][..k] == plan[..k];
  }

  /** The number of record-store writes in `es`. */
  function Updates(es: seq<Event>): nat
    decreases |es|
  {
    if es == [] then 0
    else Updates(es[..|es| - 1]) + (if es[|es| - 1].UpdateVideo? then 1 else 0)
  }

  /** `Updates` counts exactly the positions that hold a record-store write. */
  lemma {:induction false} UpdatesZeroIffNone(es: seq<Event>)
    ensures Updates(es) == 0 <==> forall i :: 0 <= i < |es| ==> !es[i].UpdateVideo?
    decreases |es|
  {
    if es != [] {
      UpdatesZeroIffNone(es[..|es| - 1]);
    }
  }

  /** Counting one more event of a plan. */
  lemma UpdatesStep(plan: seq<Event>, k: nat)
    requires k < |plan|
    ensures Updates(plan[..k + 1]) == Updates(plan[..k]) + (if plan[k].UpdateVideo? then 1 else 0)
  {
    assert plan[..k + 1][..k] == plan[..k];
  }

  /** In trace `t`, every occurrence of `b` comes after some occurrence of `a`. */
  ghost predicate HappensBefore(t: seq<Event>, a: Event, b: Event)
  {
    forall i :: 0 <= i < |t| && t[i] == b ==> exists j :: 0 <= j < i && t[j] == a
  }

  /** `b` occurs in `t` only at position `i`, and `a` occurs before it. */
  lemma HappensBeforeAt(t: seq<Event>, a: Event, b: Event, j: nat, i: nat)
    requires j < i < |t| && t[j] == a && t[i] == b
    requires forall k :: 0 <= k < |t| && t[k] == b ==> k == i
    ensures HappensBefore(t, a, b)
  {
  }

  /** An ordering constraint that a plan satisfies holds of every prefix of it,
      so of whatever part of the plan ran before an effect threw. */
  lemma HappensBeforePrefix(plan: seq<Event>, k: nat, a: Event, b: Event)
    requires k <= |plan|
    requires HappensBefore(plan, a, b)
    ensures HappensBefore(plan[..k], a, b)
  {
    var t := plan[..k];
    forall i | 0 <= i < |t| && t[i] == b
      ensures exists j :: 0 <= j < i && t[j] == a
    {
      var j :| 0 <= j < i && plan[j] == a;
      assert t[j] == a;
    }
  }

  // ----- mutable state -----

  /** The object the record lookup returns; the handlers assign its URL fields
      and hand it back to the record store. */
  class Video {
    var id: string
    var userID: string
    var thumbnailURL: Option<string>
    var videoURL: Option<string>

    constructor (r: VideoRecord)
      ensures Value() == r
    {
      id := r.id;
      userID := r.userID;
      thumbnailURL := r.thumbnailURL;
      videoURL := r.videoURL;
    }

    /** The record this object currently holds. */
    function Value(): VideoRecord
      reads this
    {
      VideoRecord(id, userID, thumbnailURL, videoURL)
    }
  }

  /** Lookup as the guards see it: the record, or none when the store had none. */
  function Lookup(video: Video?): Option<VideoRecord>
    reads video
  {
    if video == null then None else Some(video.Value())
  }

  /** The effects a request has performed so far, oldest first. */
  class EffectLog {
    var events: seq<Event>

    constructor ()
      ensures events == []
    {
      events := [];
    }

    /** Runs one I/O call: it is logged when it completes, and nothing is
        logged when it throws. */
    method Perform(e: Event, faults: Faults) returns (ok: bool)
      modifies this
      ensures ok == !Fails(e, faults)
      ensures events == if ok then old(events) + [e] else old(events)
    {
      ok := !Fails(e, faults);
      if ok {
        Record(e);
      }
    }

    /** Logs an effect that cannot throw. */
    method Record(e: Event)
      modifies this
      ensures events == old(events) + [e]
    {
      events := events + [e];
    }
  }
}
