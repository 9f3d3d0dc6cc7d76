/**
 * Video generation of lib/video-generation.ts: the API-key check, the request with the
 * user image as the one ASSET reference image, the bounded poll loop, and the download
 * tail with its optional trim that falls back to the untrimmed video.
 *
 * The poll loop and the download tail are written the same way in the `generateVideo`
 * of lib/nb-gemini.ts, whose model imports them from here.
 *
 * The video service, `fetch`, the ffmpeg trim with its temporary files, Base64 and the
 * clock are parameters.
 */
module VideoGeneration {
  import opened Wrappers
  import opened JsValues
  import opened DataUri

  const VideoModel: string := "veo-3.1-generate-preview"
  const PollInterval: nat := 10000
  const MaxWaitTime: nat := 300000
  const MissingKeyError: string := "NB_GEMINI_API_KEY is not configured"
  const TimeoutError: string := "Video generation timed out after 5 minutes"
  const NoVideoError: string := "No video generated in response"
  const NoUriError: string := "Video file has no URI"
  const DownloadErrorPrefix: string := "Failed to download video: "
  const VideoPrefix: string := "data:video/mp4;base64,"
  /** The length every generated video is reported to have, in seconds. */
  const VideoDuration: nat := 8

  // ---------------------------------------------------------------- the operation

  datatype VideoFile = VideoFile(uri: Option<string>)
  datatype GeneratedVideo = GeneratedVideo(video: Option<VideoFile>)
  datatype VideoResponse = VideoResponse(generatedVideos: Option<seq<GeneratedVideo>>)

  /** The long-running operation the service returns and the poll refreshes. */
  datatype Operation = Operation(done: bool, response: Option<VideoResponse>)

  /**
   * The poll's environment: `clock(k)` is `Date.now()` at the `k`-th loop-head check and
   * `refresh(k)` the result of the `k`-th `getVideosOperation` call.
   */
  datatype PollIo = PollIo(clock: nat -> int, refresh: nat -> Result<Operation, string>)

  /** `setTimeout(resolve, 10000)` waits at least ten seconds, so the `k`-th check is at least `10000 * k` after the start. */
  ghost predicate ClockAdvances(io: PollIo, startPollTime: int)
  {
    forall k: nat :: io.clock(k) >= startPollTime + PollInterval * k
  }

  lemma ClockPassesLimit(io: PollIo, startPollTime: int, k: nat)
    requires ClockAdvances(io, startPollTime)
    requires k > MaxWaitTime / PollInterval
    ensures io.clock(k) - startPollTime > MaxWaitTime
  {
    assert io.clock(k) >= startPollTime + PollInterval * k;
  }

  /**
   * The outcome of the poll loop entered with `operation` at the `k`-th loop-head check;
   * a successful poll ends on a finished operation.
   */
  function PollFrom(operation: Operation, k: nat, startPollTime: int, io: PollIo): (r: Result<Operation, string>)
    requires ClockAdvances(io, startPollTime)
    ensures r.Ok? ==> r.value.done
    decreases MaxWaitTime / PollInterval + 1 - k
  {
    if operation.done then Ok(operation)
    else if io.clock(k) - startPollTime > MaxWaitTime then Err(TimeoutError)
    else
      assert k <= MaxWaitTime / PollInterval by {
        if k > MaxWaitTime / PollInterval {
          ClockPassesLimit(io, startPollTime, k);
        }
      }
      match io.refresh(k)
      case Err(e) => Err(e)
      case Ok(next) => PollFrom(next, k + 1, startPollTime, io)
  }

  /** `while (!operation.done) { timeout check; sleep; operation = refresh }`. */
  method PollUntilDone(operation0: Operation, startPollTime: int, io: PollIo) returns (r: Result<Operation, string>)
    requires ClockAdvances(io, startPollTime)
    ensures r == PollFrom(operation0, 0, startPollTime, io)
  {
    var operation := operation0;
    var k: nat := 0;
    while !operation.done
      invariant PollFrom(operation, k, startPollTime, io) == PollFrom(operation0, 0, startPollTime, io)
      decreases MaxWaitTime / PollInterval + 1 - k
    {
      if io.clock(k) - startPollTime > MaxWaitTime {
        return Err(TimeoutError);
      }
      if k > MaxWaitTime / PollInterval {
        ClockPassesLimit(io, startPollTime, k);
      }
      var next := io.refresh(k);
      if next.Err? {
        return Err(next.error);
      }
      operation := next.value;
      k := k + 1;
    }
    r := Ok(operation);
  }

  /**
   * An operation that never finishes and never fails to refresh ends in the timeout
   * error, raised at a check that saw more than five minutes elapsed.
   */
  lemma {:induction false} PollTimesOut(operation: Operation, k: nat, startPollTime: int, io: PollIo)
    requires ClockAdvances(io, startPollTime)
    requires !operation.done
    requires forall j: nat :: j >= k ==> io.refresh(j).Ok? && !io.refresh(j).value.done
    ensures PollFrom(operation, k, startPollTime, io) == Err(TimeoutError)
    decreases MaxWaitTime / PollInterval + 1 - k
  {
    if io.clock(k) - startPollTime <= MaxWaitTime {
      if k > MaxWaitTime / PollInterval {
        ClockPassesLimit(io, startPollTime, k);
      }
      PollTimesOut(io.refresh(k).value, k + 1, startPollTime, io);
    }
  }

  /** The timeout is raised only at a check that saw more than five minutes elapsed. */
  lemma {:induction false} TimeoutOnlyAfterLimit(operation: Operation, k: nat, startPollTime: int, io: PollIo)
    requires ClockAdvances(io, startPollTime)
    requires forall j: nat :: io.refresh(j).Err? ==> io.refresh(j).error != TimeoutError
    ensures PollFrom(operation, k, startPollTime, io) == Err(TimeoutError) ==>
      exists j: nat :: k <= j && io.clock(j) - startPollTime > MaxWaitTime
    decreases MaxWaitTime / PollInterval + 1 - k
  {
    if !operation.done && io.clock(k) - startPollTime <= MaxWaitTime && io.refresh(k).Ok? {
      if k > MaxWaitTime / PollInterval {
        ClockPassesLimit(io, startPollTime, k);
      }
      TimeoutOnlyAfterLimit(io.refresh(k).value, k + 1, startPollTime, io);
    }
  }

  // ---------------------------------------------------------------- download

  /**
   * The download's environment: `fs.mkdtemp` of the temporary directory (Err carries the
   * thrown message), `fetch` of the video URI (Err carries the thrown message,
   * "Failed to fetch video: <status>" for a response that is not ok), the trim of the
   * first second (writing the file, running ffmpeg, reading the result back), whether
   * `TRIM_VIDEO_START` is "true", and Base64.
   */
  datatype DownloadIo = DownloadIo(
    mkdtemp: Result<(), string>,
    fetch: string -> Result<Bytes, string>,
    shouldTrim: bool,
    trim: Bytes -> Result<Bytes, string>,
    encodeBase64: Bytes -> string)

  datatype VideoResult = VideoResult(videoUrl: string, model: string, processingTime: int, duration: nat)

  /** The first generated video's file, if the finished operation has one. */
  function FirstVideo(operation: Operation): Option<VideoFile>
  {
    if operation.response.Some? && operation.response.value.generatedVideos.Some?
      && |operation.response.value.generatedVideos.value| > 0
    then operation.response.value.generatedVideos.value[0].video
    else None
  }

  /** The video bytes after the optional trim: the trimmed video, or the fetched one when trimming is off or fails. */
  function Trimmed(video: Bytes, io: DownloadIo): Bytes
  {
    if io.shouldTrim && io.trim(video).Ok? then io.trim(video).value else video
  }

  /**
   * Everything after the poll, from the finished operation to the result or the error
   * thrown. A success needs a video in the response and a temporary directory, and is an
   * MP4 data URI of an 8-second video from the Veo model.
   */
  function Finish(operation: Operation, io: DownloadIo, processingTime: int): (r: Result<VideoResult, string>)
    ensures r.Ok? ==> FirstVideo(operation).Some? && io.mkdtemp.Ok?
    ensures r.Ok? ==> VideoPrefix <= r.value.videoUrl && r.value.duration == VideoDuration && r.value.model == VideoModel
  {
    match FirstVideo(operation)
    case None => Err(NoVideoError)
    case Some(file) =>
      if io.mkdtemp.Err? then Err(io.mkdtemp.error)
      else if !Truthy(file.uri) then Err(DownloadErrorPrefix + NoUriError)
      else match io.fetch(file.uri.value)
        case Err(e) => Err(DownloadErrorPrefix + e)
        case Ok(video) =>
          Ok(VideoResult(VideoPrefix + io.encodeBase64(Trimmed(video, io)), VideoModel, processingTime, VideoDuration))
  }

  /** The download tail, with `videoBuffer` reassigned after a successful trim. */
  method DownloadVideo(operation: Operation, io: DownloadIo, processingTime: int) returns (r: Result<VideoResult, string>)
    ensures r == Finish(operation, io, processingTime)
  {
    var videoFile := FirstVideo(operation);
    if videoFile.None? {
      return Err(NoVideoError);
    }
    var tempDir := io.mkdtemp;
    if tempDir.Err? {
      return Err(tempDir.error);
    }
    if !Truthy(videoFile.value.uri) {
      return Err(DownloadErrorPrefix + NoUriError);
    }
    var fetched := io.fetch(videoFile.value.uri.value);
    if fetched.Err? {
      return Err(DownloadErrorPrefix + fetched.error);
    }
    var videoBuffer := fetched.value;
    if io.shouldTrim {
      var trimmed := io.trim(videoBuffer);
      if trimmed.Ok? {
        videoBuffer := trimmed.value;
      }
    }
    r := Ok(VideoResult(VideoPrefix + io.encodeBase64(videoBuffer), VideoModel, processingTime, VideoDuration));
  }

  /** A failed trim gives the same result as no trim at all. */
  lemma TrimFailureFallsBack(operation: Operation, io: DownloadIo, processingTime: int, video: Bytes)
    requires FirstVideo(operation).Some? && io.mkdtemp.Ok? && Truthy(FirstVideo(operation).value.uri)
    requires io.fetch(FirstVideo(operation).value.uri.value) == Ok(video)
    requires io.trim(video).Err?
    ensures Finish(operation, io, processingTime) == Finish(operation, io.(shouldTrim := false), processingTime)
    ensures Finish(operation, io, processingTime).value.videoUrl == VideoPrefix + io.encodeBase64(video)
  {
  }

  /** A finished operation without a first video fails with "No video generated in response", before any download. */
  lemma MissingVideoFails(operation: Operation, io: DownloadIo, processingTime: int)
    requires FirstVideo(operation).None?
    ensures Finish(operation, io, processingTime) == Err(NoVideoError)
  {
  }

  /**
   * Once there is a video to download, a failure to create the temporary directory is
   * rethrown as it is, because it happens before the download's `try`; every other failure
   * carries the "Failed to download video: " prefix.
   */
  lemma DownloadErrorsWrapped(operation: Operation, io: DownloadIo, processingTime: int)
    requires FirstVideo(operation).Some?
    requires Finish(operation, io, processingTime).Err?
    ensures io.mkdtemp.Err? ==> Finish(operation, io, processingTime) == Err(io.mkdtemp.error)
    ensures io.mkdtemp.Ok? ==> DownloadErrorPrefix <= Finish(operation, io, processingTime).error
  {
  }

  // ---------------------------------------------------------------- the request

  datatype ReferenceType = Asset
  datatype ImageInput = ImageInput(imageBytes: Option<string>, mimeType: string)
  datatype ReferenceImage = ReferenceImage(image: ImageInput, referenceType: ReferenceType)

  /** The argument of `generateVideos`: an `image`, or a `config.referenceImages` list, or both. */
  datatype VideoRequest = VideoRequest(
    model: string,
    prompt: string,
    image: Option<ImageInput>,
    referenceImages: Option<seq<ReferenceImage>>)

  /** The user image: `imageBytes` is `extractBase64(baseImage)` and `mimeType` is `extractMimeType(baseImage)`. */
  function UserImage(baseImage: string): ImageInput
  {
    ImageInput(ExtractBase64(baseImage), ExtractMimeType(baseImage))
  }

  /** This file's request: the user image wrapped once as an ASSET reference image. */
  function AssetRequest(baseImage: string, prompt: string): VideoRequest
  {
    VideoRequest(VideoModel, prompt, None, Some([ReferenceImage(UserImage(baseImage), Asset)]))
  }

  /**
   * The environment of `generateVideo`: `NB_GEMINI_API_KEY`, the call that starts the
   * operation, the poll and download environments, and the clock readings at the start
   * of the call, at the start of the poll and at the end.
   */
  datatype VideoIo = VideoIo(
    apiKey: Option<string>,
    start: VideoRequest -> Result<Operation, string>,
    poll: PollIo,
    download: DownloadIo,
    startTime: int,
    startPollTime: int,
    endTime: int)

  /** `generateVideo` for a given request shape, as a function. */
  function VideoOutcome(request: VideoRequest, io: VideoIo): Result<VideoResult, string>
    requires ClockAdvances(io.poll, io.startPollTime)
  {
    if !Truthy(io.apiKey) then Err(MissingKeyError)
    else match io.start(request)
      case Err(e) => Err(e)
      case Ok(operation) =>
        match PollFrom(operation, 0, io.startPollTime, io.poll)
        case Err(e) => Err(e)
        case Ok(finished) => Finish(finished, io.download, io.endTime - io.startTime)
  }

  /** The key check, the start call, the poll and the download, in that order. */
  method RunVideo(request: VideoRequest, io: VideoIo) returns (r: Result<VideoResult, string>)
    requires ClockAdvances(io.poll, io.startPollTime)
    ensures r == VideoOutcome(request, io)
  {
    if !Truthy(io.apiKey) {
      return Err(MissingKeyError);
    }
    var operation := io.start(request);
    if operation.Err? {
      return Err(operation.error);
    }
    var finished := PollUntilDone(operation.value, io.startPollTime, io.poll);
    if finished.Err? {
      return Err(finished.error);
    }
    r := DownloadVideo(finished.value, io.download, io.endTime - io.startTime);
  }

  /** `generateVideo({ baseImage, prompt })` of lib/video-generation.ts. */
  method GenerateVideo(baseImage: string, prompt: string, io: VideoIo) returns (r: Result<VideoResult, string>)
    requires ClockAdvances(io.poll, io.startPollTime)
    ensures r == VideoOutcome(AssetRequest(baseImage, prompt), io)
  {
    r := RunVideo(AssetRequest(baseImage, prompt), io);
  }

  /** Without an API key the call fails with the configuration error whatever the services would do. */
  lemma MissingKeyFailsFirst(request: VideoRequest, io: VideoIo, other: VideoIo)
    requires ClockAdvances(io.poll, io.startPollTime) && ClockAdvances(other.poll, other.startPollTime)
    requires !Truthy(io.apiKey) && other.apiKey == io.apiKey
    ensures VideoOutcome(request, io) == VideoOutcome(request, other) == Err(MissingKeyError)
  {
  }

  /** The request carries the prompt and exactly one reference image: the user's, as an ASSET, with no separate `image`. */
  lemma UserImageIsSoleAsset(baseImage: string, prompt: string)
    ensures var request := AssetRequest(baseImage, prompt);
      request.model == VideoModel && request.prompt == prompt && request.image.None?
      && request.referenceImages.Some? && |request.referenceImages.value| == 1
      && request.referenceImages.value[0].referenceType == Asset
      && request.referenceImages.value[0].image.imageBytes == ExtractBase64(baseImage)
      && request.referenceImages.value[0].image.mimeType == ExtractMimeType(baseImage)
  {
  }

  /** A user image without a `data:<type>;` prefix is sent as "image/jpeg". */
  lemma UnprefixedImageIsJpeg(baseImage: string)
    requires ';' !in baseImage
    ensures UserImage(baseImage).mimeType == DefaultMimeType
  {
    NoSemicolonDefaultsToJpeg(baseImage);
  }
}
