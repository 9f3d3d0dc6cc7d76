/**
 * Image and video generation of lib/nb-gemini.ts. `generateImages` sends one
 * `generateContent` request per prompt (the prompt, the user image, then any reference
 * images), turns each response into a data URI and waits for all of them, so one
 * failure fails the whole call. `generateVideo` sends the user image as the request's
 * `image` and then polls and downloads as lib/video-generation.ts does.
 *
 * The Gemini service and the clock are parameters.
 */
module NbGemini {
  import opened Wrappers
  import opened JsValues
  import opened DataUri
  import VideoGeneration

  const ImageModel: string := "gemini-2.5-flash-image"
  const NoImageError: string := "No image generated"
  const InvalidResponseError: string := "Invalid response structure"
  /** The MIME type of a returned image that names none. */
  const FallbackImageMimeType: string := "image/png"

  datatype Quality = Low | High

  datatype GenerationOptions = GenerationOptions(
    baseImage: string,
    referenceImages: Option<seq<string>>,
    prompts: seq<string>,
    quality: Quality)

  datatype GenerationResult = GenerationResult(images: seq<string>, model: string, processingTime: int)

  // ---------------------------------------------------------------- the request

  /** A request part: `{ text }` or `{ inlineData: { mimeType, data } }`; `data` is `undefined` for a URI without a comma. */
  datatype Part = Text(text: string) | InlineData(mimeType: string, data: Option<string>)

  /** The inline part for an image given as a data URI. */
  function ImagePart(dataUri: string): Part
  {
    InlineData(ExtractMimeType(dataUri), ExtractBase64(dataUri))
  }

  /** The reference images that are sent: all of them when the list is present and non-empty. */
  function SentReferences(referenceImages: Option<seq<string>>): seq<string>
  {
    if referenceImages.Some? && |referenceImages.value| > 0 then referenceImages.value else []
  }

  /**
   * The images of one prompt's request, in order: the user image, then every reference
   * image given; an absent list sends the user image alone.
   */
  function RequestImages(baseImage: string, referenceImages: Option<seq<string>>): (images: seq<string>)
    ensures |images| >= 1 && images[0] == baseImage
    ensures referenceImages.Some? ==> images[1..] == referenceImages.value
    ensures referenceImages.None? ==> images == [baseImage]
  {
    [baseImage] + SentReferences(referenceImages)
  }

  /** `parts` is the prompt's text followed by the encoding of each image, in order. */
  ghost predicate Encodes(parts: seq<Part>, prompt: string, images: seq<string>, encode: string -> Part)
  {
    |parts| == 1 + |images| && parts[0] == Text(prompt)
    && forall i :: 0 <= i < |images| ==> parts[1 + i] == encode(images[i])
  }

  /** The text part followed by the encoded images. */
  function EncodeParts(prompt: string, images: seq<string>, encode: string -> Part): (parts: seq<Part>)
    ensures Encodes(parts, prompt, images, encode)
  {
    [Text(prompt)] + seq(|images|, (i: int) requires 0 <= i < |images| => encode(images[i]))
  }

  /** The `parts` array one prompt's request is built into. */
  function PartsFor(prompt: string, baseImage: string, referenceImages: Option<seq<string>>): seq<Part>
  {
    EncodeParts(prompt, RequestImages(baseImage, referenceImages), ImagePart)
  }

  /** Only one part list encodes a prompt and its images, so `BuildParts` builds `PartsFor`. */
  lemma EncodingIsUnique(parts: seq<Part>, prompt: string, images: seq<string>, encode: string -> Part)
    requires Encodes(parts, prompt, images, encode)
    ensures parts == EncodeParts(prompt, images, encode)
  {
    var expected := EncodeParts(prompt, images, encode);
    forall i | 0 <= i < |parts|
      ensures parts[i] == expected[i]
    {
      if i >= 1 {
        assert parts[1 + (i - 1)] == expected[1 + (i - 1)];
      }
    }
  }

  /** The `parts.push` sequence of one prompt. */
  method BuildParts(prompt: string, baseImage: string, referenceImages: Option<seq<string>>) returns (parts: seq<Part>)
    ensures parts == PartsFor(prompt, baseImage, referenceImages)
  {
    parts := [Text(prompt)];
    parts := parts + [ImagePart(baseImage)];
    var refs := SentReferences(referenceImages);
    if referenceImages.Some? && |referenceImages.value| > 0 {
      for k := 0 to |refs|
        invariant Encodes(parts, prompt, [baseImage] + refs[..k], ImagePart)
      {
        assert [baseImage] + refs[..k + 1] == ([baseImage] + refs[..k]) + [refs[k]];
        parts := parts + [ImagePart(refs[k])];
      }
    }
    assert [baseImage] + refs[..|refs|] == RequestImages(baseImage, referenceImages);
    EncodingIsUnique(parts, prompt, RequestImages(baseImage, referenceImages), ImagePart);
  }

  /** An absent and an empty reference list give the same two-part request. */
  lemma EmptyReferencesSendNothing(prompt: string, baseImage: string)
    ensures PartsFor(prompt, baseImage, None) == PartsFor(prompt, baseImage, Some([]))
    ensures |PartsFor(prompt, baseImage, None)| == 2
  {
  }

  // ---------------------------------------------------------------- the response

  datatype UsageMetadata = UsageMetadata(promptTokenCount: Option<nat>, candidatesTokenCount: Option<nat>)
  datatype InlineBlob = InlineBlob(mimeType: Option<string>, data: Option<string>)
  datatype ResponsePart = ResponsePart(inlineData: Option<InlineBlob>)
  datatype Content = Content(parts: Option<seq<ResponsePart>>)
  datatype Candidate = Candidate(content: Option<Content>)
  datatype Response = Response(usageMetadata: Option<UsageMetadata>, candidates: Option<seq<Candidate>>)

  /** One prompt's image, as a data URI, and the tokens its request used. */
  datatype ImageOutcome = ImageOutcome(dataUri: string, inputTokens: nat, outputTokens: nat)

  /** `parts.find(part => part.inlineData)`: the first part that carries inline data. */
  function FirstInlineData(parts: seq<ResponsePart>): (r: Option<InlineBlob>)
    ensures r.None? <==> forall i :: 0 <= i < |parts| ==> parts[i].inlineData.None?
    ensures r.Some? ==> exists i :: 0 <= i < |parts| && parts[i].inlineData == r &&
                          forall j :: 0 <= j < i ==> parts[j].inlineData.None?
  {
    if |parts| == 0 then None
    else if parts[0].inlineData.Some? then parts[0].inlineData
    else
      var r := FirstInlineData(parts[1..]);
      if r.Some? then
        var i :| 0 <= i < |parts[1..]| && parts[1..][i].inlineData == r &&
                 forall j :: 0 <= j < i ==> parts[1..][j].inlineData.None?;
        assert parts[i + 1].inlineData == r;
        r
      else r
  }

  /** `count || 0`. */
  function TokenCount(count: Option<nat>): nat
  {
    if count.Some? then count.value else 0
  }

  /** The parts of the first candidate's content, when the response has them. */
  function FirstCandidateParts(response: Response): Option<seq<ResponsePart>>
  {
    if response.candidates.Some? && |response.candidates.value| > 0
      && response.candidates.value[0].content.Some?
    then response.candidates.value[0].content.value.parts
    else None
  }

  /**
   * One prompt's response, read into its image and token counts or into the error thrown.
   * An image is returned exactly when the first candidate has parts and the first inline
   * part has non-empty data; a response without parts is "Invalid response structure",
   * every other failure is "No image generated", and the image is a data URI.
   */
  function ImageFromResponse(response: Response): (r: Result<ImageOutcome, string>)
    ensures r.Ok? <==>
      FirstCandidateParts(response).Some? && FirstInlineData(FirstCandidateParts(response).value).Some? &&
      Truthy(FirstInlineData(FirstCandidateParts(response).value).value.data)
    ensures FirstCandidateParts(response).None? <==> r == Err(InvalidResponseError)
    ensures r.Err? ==> r.error == InvalidResponseError || r.error == NoImageError
    ensures r.Ok? ==> DataScheme <= r.value.dataUri
  {
    var inputTokens := if response.usageMetadata.Some? then TokenCount(response.usageMetadata.value.promptTokenCount) else 0;
    var outputTokens := if response.usageMetadata.Some? then TokenCount(response.usageMetadata.value.candidatesTokenCount) else 0;
    match FirstCandidateParts(response)
    case None => Err(InvalidResponseError)
    case Some(parts) =>
      match FirstInlineData(parts)
      case None => Err(NoImageError)
      case Some(blob) =>
        if Truthy(blob.data) then
          Ok(ImageOutcome(BuildDataUri(OrDefault(blob.mimeType, FallbackImageMimeType), blob.data.value), inputTokens, outputTokens))
        else Err(NoImageError)
  }

  /**
   * The returned data URI carries the response's payload under its MIME type, "image/png"
   * when it names none, and reads back into both.
   */
  lemma ImageUriReadsBack(response: Response, parts: seq<ResponsePart>, blob: InlineBlob)
    requires FirstCandidateParts(response) == Some(parts) && FirstInlineData(parts) == Some(blob)
    requires Truthy(blob.data) && ',' !in blob.data.value
    requires blob.mimeType.Some? ==> ';' !in blob.mimeType.value && ',' !in blob.mimeType.value
    ensures ImageFromResponse(response).Ok?
    ensures ExtractBase64(ImageFromResponse(response).value.dataUri) == blob.data
    ensures ExtractMimeType(ImageFromResponse(response).value.dataUri) == OrDefault(blob.mimeType, FallbackImageMimeType)
  {
    ImageUriIsBuilt(response, parts, blob);
    FallbackIsPlain();
  }

  lemma FallbackIsPlain()
    ensures |FallbackImageMimeType| > 0 && ';' !in FallbackImageMimeType && ',' !in FallbackImageMimeType
  {
  }

  lemma ImageUriIsBuilt(response: Response, parts: seq<ResponsePart>, blob: InlineBlob)
    requires FirstCandidateParts(response) == Some(parts) && FirstInlineData(parts) == Some(blob)
    requires Truthy(blob.data)
    ensures ImageFromResponse(response).Ok?
    ensures ImageFromResponse(response).value.dataUri == BuildDataUri(OrDefault(blob.mimeType, FallbackImageMimeType), blob.data.value)
  {
  }

  /** A response without usage metadata counts no tokens. */
  lemma NoUsageCountsZero(response: Response)
    requires response.usageMetadata.None? && ImageFromResponse(response).Ok?
    ensures ImageFromResponse(response).value.inputTokens == 0 && ImageFromResponse(response).value.outputTokens == 0
  {
  }

  // ---------------------------------------------------------------- all prompts

  /**
   * The image service: `NB_GEMINI_API_KEY`, `generateContent` for the request of the
   * prompt at a given index (its result or the message it throws), and the clock at the
   * start and at the end of the call.
   */
  datatype ImageIo = ImageIo(
    apiKey: Option<string>,
    generateContent: (nat, seq<Part>) -> Result<Response, string>,
    startTime: int,
    endTime: int)

  /**
   * The settled outcome of the prompt at `index`: a request that throws rejects with its
   * own message, and a fulfilled prompt always yields a data URI.
   */
  function PromptOutcome(options: GenerationOptions, index: nat, io: ImageIo): (r: Result<ImageOutcome, string>)
    requires index < |options.prompts|
    ensures var sent := io.generateContent(index, PartsFor(options.prompts[index], options.baseImage, options.referenceImages));
      sent.Err? ==> r == Err(sent.error)
    ensures r.Ok? ==> DataScheme <= r.value.dataUri
  {
    match io.generateContent(index, PartsFor(options.prompts[index], options.baseImage, options.referenceImages))
    case Err(e) => Err(e)
    case Ok(response) => ImageFromResponse(response)
  }

  /** `options.prompts.map(...)`: one outcome per prompt, in prompt order. */
  function Outcomes(options: GenerationOptions, io: ImageIo): (r: seq<Result<ImageOutcome, string>>)
    ensures |r| == |options.prompts|
    ensures forall i :: 0 <= i < |r| ==> r[i] == PromptOutcome(options, i, io)
  {
    seq(|options.prompts|, (i: int) requires 0 <= i < |options.prompts| => PromptOutcome(options, i, io))
  }

  /**
   * `Promise.all`: every value, in order, when all are fulfilled; otherwise the error of
   * one that was rejected.
   */
  function All(outcomes: seq<Result<ImageOutcome, string>>): (r: Result<seq<ImageOutcome>, string>)
    ensures r.Ok? <==> forall i :: 0 <= i < |outcomes| ==> outcomes[i].Ok?
    ensures r.Ok? ==> |r.value| == |outcomes| && forall i :: 0 <= i < |outcomes| ==> outcomes[i] == Ok(r.value[i])
    ensures r.Err? ==> exists i :: 0 <= i < |outcomes| && outcomes[i] == Err(r.error)
  {
    if |outcomes| == 0 then Ok([])
    else if outcomes[0].Err? then Err(outcomes[0].error)
    else
      var rest := All(outcomes[1..]);
      if rest.Err? then
        var i :| 0 <= i < |outcomes[1..]| && outcomes[1..][i] == Err(rest.error);
        assert outcomes[i + 1] == Err(rest.error);
        Err(rest.error)
      else
        var r := [outcomes[0].value] + rest.value;
        assert forall i :: 1 <= i < |outcomes| ==> outcomes[i] == outcomes[1..][i - 1];
        Ok(r)
  }

  /** The images of a list of outcomes, in order. */
  function DataUris(results: seq<ImageOutcome>): seq<string>
  {
    if |results| == 0 then [] else DataUris(results[..|results| - 1]) + [results[|results| - 1].dataUri]
  }

  lemma {:induction false} DataUrisInOrder(results: seq<ImageOutcome>)
    ensures |DataUris(results)| == |results|
    ensures forall i :: 0 <= i < |results| ==> DataUris(results)[i] == results[i].dataUri
  {
    if |results| > 0 {
      DataUrisInOrder(results[..|results| - 1]);
    }
  }

  function SumInputTokens(results: seq<ImageOutcome>): nat
  {
    if |results| == 0 then 0 else SumInputTokens(results[..|results| - 1]) + results[|results| - 1].inputTokens
  }

  function SumOutputTokens(results: seq<ImageOutcome>): nat
  {
    if |results| == 0 then 0 else SumOutputTokens(results[..|results| - 1]) + results[|results| - 1].outputTokens
  }

  /** The `results.forEach` that collects the images and the token totals the development log reports. */
  method Accumulate(results: seq<ImageOutcome>) returns (generatedImages: seq<string>, totalInputTokens: nat, totalOutputTokens: nat)
    ensures generatedImages == DataUris(results)
    ensures totalInputTokens == SumInputTokens(results) && totalOutputTokens == SumOutputTokens(results)
  {
    generatedImages := [];
    totalInputTokens := 0;
    totalOutputTokens := 0;
    for k := 0 to |results|
      invariant generatedImages == DataUris(results[..k])
      invariant totalInputTokens == SumInputTokens(results[..k]) && totalOutputTokens == SumOutputTokens(results[..k])
    {
      assert results[..k + 1][..k] == results[..k];
      generatedImages := generatedImages + [results[k].dataUri];
      totalInputTokens := totalInputTokens + results[k].inputTokens;
      totalOutputTokens := totalOutputTokens + results[k].outputTokens;
    }
    assert results[..|results|] == results;
  }

  /** `generateImages(options)` as a function. */
  function ImagesOutcome(options: GenerationOptions, io: ImageIo): Result<GenerationResult, string>
  {
    if !Truthy(io.apiKey) then Err(VideoGeneration.MissingKeyError)
    else match All(Outcomes(options, io))
      case Err(e) => Err(e)
      case Ok(results) => Ok(GenerationResult(DataUris(results), ImageModel, io.endTime - io.startTime))
  }

  /** `generateImages(options)`. */
  method GenerateImages(options: GenerationOptions, io: ImageIo) returns (r: Result<GenerationResult, string>)
    ensures r == ImagesOutcome(options, io)
  {
    if !Truthy(io.apiKey) {
      return Err(VideoGeneration.MissingKeyError);
    }
    var outcomes := Outcomes(options, io);
    var results := All(outcomes);
    if results.Err? {
      return Err(results.error);
    }
    var generatedImages, totalInputTokens, totalOutputTokens := Accumulate(results.value);
    r := Ok(GenerationResult(generatedImages, ImageModel, io.endTime - io.startTime));
  }

  /** A successful call returns one image per prompt, in prompt order, each the image of that prompt's response. */
  lemma OneImagePerPrompt(options: GenerationOptions, io: ImageIo)
    requires ImagesOutcome(options, io).Ok?
    ensures var images := ImagesOutcome(options, io).value.images;
      |images| == |options.prompts| &&
      forall i :: 0 <= i < |images| ==> PromptOutcome(options, i, io).Ok? && images[i] == PromptOutcome(options, i, io).value.dataUri
  {
    var results := All(Outcomes(options, io)).value;
    DataUrisInOrder(results);
  }

  /**
   * With a key configured the call fails exactly when some prompt fails, and then with
   * the error of a prompt that failed.
   */
  lemma AnyFailureFailsAll(options: GenerationOptions, io: ImageIo)
    requires Truthy(io.apiKey)
    ensures ImagesOutcome(options, io).Err? <==> exists i :: 0 <= i < |options.prompts| && PromptOutcome(options, i, io).Err?
    ensures ImagesOutcome(options, io).Err? ==>
      exists i :: 0 <= i < |options.prompts| && PromptOutcome(options, i, io) == Err(ImagesOutcome(options, io).error)
  {
    var outcomes := Outcomes(options, io);
    if exists i :: 0 <= i < |options.prompts| && PromptOutcome(options, i, io).Err? {
      var i :| 0 <= i < |options.prompts| && PromptOutcome(options, i, io).Err?;
      assert outcomes[i].Err?;
    }
  }

  /** Without a key no request is made: the result is the configuration error whatever the service would answer. */
  lemma MissingKeyFailsFirst(options: GenerationOptions, io: ImageIo)
    requires !Truthy(io.apiKey)
    ensures ImagesOutcome(options, io) == Err(VideoGeneration.MissingKeyError)
  {
  }

  /** The requested quality changes nothing about the requests or the result. */
  lemma QualityIsIgnored(options: GenerationOptions, io: ImageIo, quality: Quality)
    ensures ImagesOutcome(options.(quality := quality), io) == ImagesOutcome(options, io)
  {
    assert Outcomes(options.(quality := quality), io) == Outcomes(options, io);
  }

  /** The token totals are the sums over the prompts' responses; an empty prompt list costs nothing. */
  lemma {:induction false} TotalsOfAppend(results: seq<ImageOutcome>, last: ImageOutcome)
    ensures SumInputTokens(results + [last]) == SumInputTokens(results) + last.inputTokens
    ensures SumOutputTokens(results + [last]) == SumOutputTokens(results) + last.outputTokens
  {
    assert (results + [last])[..|results|] == results;
  }

  // ---------------------------------------------------------------- video

  /** This file's video request: the user image as the request's `image`, with no reference images. */
  function ImageRequest(baseImage: string, prompt: string): VideoGeneration.VideoRequest
  {
    VideoGeneration.VideoRequest(VideoGeneration.VideoModel, prompt, Some(VideoGeneration.UserImage(baseImage)), None)
  }

  /** `generateVideo({ baseImage, prompt })` of lib/nb-gemini.ts. */
  method GenerateVideo(baseImage: string, prompt: string, io: VideoGeneration.VideoIo) returns (r: Result<VideoGeneration.VideoResult, string>)
    requires VideoGeneration.ClockAdvances(io.poll, io.startPollTime)
    ensures r == VideoGeneration.VideoOutcome(ImageRequest(baseImage, prompt), io)
  {
    r := VideoGeneration.RunVideo(ImageRequest(baseImage, prompt), io);
  }

  /** The two video functions differ only in how the user image is attached to the request. */
  lemma VideoVariantsDifferOnlyInRequest(baseImage: string, prompt: string, io: VideoGeneration.VideoIo)
    requires VideoGeneration.ClockAdvances(io.poll, io.startPollTime)
    requires io.start(ImageRequest(baseImage, prompt)) == io.start(VideoGeneration.AssetRequest(baseImage, prompt))
    ensures VideoGeneration.VideoOutcome(ImageRequest(baseImage, prompt), io) ==
      VideoGeneration.VideoOutcome(VideoGeneration.AssetRequest(baseImage, prompt), io)
    ensures ImageRequest(baseImage, prompt).image == Some(VideoGeneration.AssetRequest(baseImage, prompt).referenceImages.value[0].image)
    ensures ImageRequest(baseImage, prompt).referenceImages.None?
  {
  }
}
