/**
 * The anonymous preview route of app/api/preview/route.ts. It needs no account: the caller
 * is keyed by the first `x-forwarded-for` hop (else `x-real-ip`, else "unknown") and allowed
 * one preview per UTC day. A preview is generated at low quality without reference photos,
 * every image is watermarked and downscaled, and the reply carries a receipt naming the
 * hashed caller key, the preset, the time and the photo's audit hash.
 *
 * The preset table is a parameter (`PRESETS` in the running program); the request headers,
 * the form, the clock, SHA-256, Base64, the image service and the image library are too.
 */
module PreviewRoute {
  import opened Wrappers
  import opened JsValues
  import opened Http
  import RateLimit
  import Presets
  import NbGemini
  import Watermark

  const UnknownCaller: string := "unknown"
  const LimitError: string := "Daily preview limit reached. Sign up for unlimited generations!"
  const PaidOnlyError: string := "This preset requires a paid account"
  const PreviewFailed: string := "Preview generation failed"
  const PreviewMessage: string := "Preview generated! Sign up for full-resolution images."

  /**
   * The environment of one call:
   * - `forwardedFor` and `realIp` are the `x-forwarded-for` and `x-real-ip` headers;
   * - `today` is the UTC day of the call, `now` its ISO time;
   * - `form` is `req.formData()`, Err when parsing throws;
   * - `sha256Hex` digests the photo bytes and `sha256Text` the caller key, both in hex;
   * - `scenes` gives the scene sentences of the prompts;
   * - `watermark` is the image library `watermarkAndDownscale` uses;
   * - `encodeReceipt` is the Base64 of the receipt's JSON.
   */
  datatype PreviewIo = PreviewIo(
    forwardedFor: Option<string>,
    realIp: Option<string>,
    today: int,
    now: string,
    form: Result<Form, string>,
    encodeBase64: Bytes -> string,
    sha256Hex: Bytes -> string,
    sha256Text: string -> string,
    scenes: (string, nat) -> string,
    images: NbGemini.ImageIo,
    watermark: Watermark.ImageIo,
    encodeReceipt: Watermark.Receipt -> string)

  /** A call's reply and the rate-limit map after it. */
  datatype PreviewStep = PreviewStep(reply: Reply, attempts: RateLimit.Attempts)

  /**
   * The caller key: the first `x-forwarded-for` hop when non-empty, else `x-real-ip` when
   * non-empty, else "unknown". The key is never empty, and it is a prefix of the forwarded
   * chain, the real IP, or "unknown".
   */
  function CallerKey(forwardedFor: Option<string>, realIp: Option<string>): (r: string)
    ensures r != ""
    ensures (forwardedFor.Some? && r <= forwardedFor.value && ',' !in r) || realIp == Some(r) || r == UnknownCaller
  {
    var firstHop := if forwardedFor.Some? then Some(SplitFirst(forwardedFor.value, ',')) else None;
    if Truthy(firstHop) then firstHop.value else OrDefault(realIp, UnknownCaller)
  }

  /** The options `generateImages` is called with: the photo, no references, the preset's prompts, low quality. */
  function PreviewOptions(photo: Photo, preset: Presets.Preset, io: PreviewIo): NbGemini.GenerationOptions
  {
    NbGemini.GenerationOptions(
      PhotoDataUri(photo, io.encodeBase64),
      None,
      Presets.PromptTexts(preset.prompts, io.scenes),
      NbGemini.Low)
  }

  /**
   * `Promise.all(images.map(img => watermarkAndDownscale(img)))`: each image watermarked
   * and downscaled, in order; each is a PNG data URI, or the image itself when
   * watermarking it failed.
   */
  function Watermarks(images: seq<string>, watermark: Watermark.ImageIo): (r: seq<string>)
    ensures |r| == |images|
    ensures forall i :: 0 <= i < |r| ==> r[i] == Watermark.Watermarked(images[i], true, watermark)
    ensures forall i :: 0 <= i < |r| ==> r[i] == images[i] || Watermark.PngPrefix <= r[i]
  {
    seq(|images|, (i: int) requires 0 <= i < |images| => Watermark.Watermarked(images[i], true, watermark))
  }

  /** The receipt data: the short hash of the caller key, the preset id, the time and the photo's audit hash. */
  function PreviewData(ip: string, presetId: string, photo: Photo, io: PreviewIo): Watermark.PreviewData
  {
    Watermark.PreviewData(ShortHash(io.sha256Text(ip)), presetId, io.now, AuditHash(photo, io.sha256Hex))
  }

  /** Everything after the rate limit let the call through: never a 429, and a 200 is a ready preview. */
  function Admitted(ip: string, io: PreviewIo, presets: map<string, Presets.Preset>): (r: Reply)
    ensures r.status in {200, 400, 403, 500}
    ensures r.status == 200 ==> r.body.PreviewReady? && r.body.message == PreviewMessage
  {
    match io.form
    case Err(_) => Failure(500, PreviewFailed)
    case Ok(form) =>
      if form.photo.None? || !Truthy(form.presetId) then Failure(400, "Photo and preset ID are required")
      else match Presets.Lookup(presets, form.presetId.value)
        case None => Failure(400, "Invalid preset")
        case Some(preset) =>
          if preset.requiresRefs then Failure(403, PaidOnlyError)
          else match NbGemini.ImagesOutcome(PreviewOptions(form.photo.value, preset, io), io.images)
            case Err(_) => Failure(500, PreviewFailed)
            case Ok(result) =>
              var receipt := Watermark.CreatePreviewReceipt(PreviewData(ip, form.presetId.value, form.photo.value, io), io.encodeReceipt);
              Success(PreviewReady(Watermarks(result.images, io.watermark), receipt, PreviewMessage))
  }

  /**
   * `POST` as a function of the rate-limit map before the call. It answers 200, 400, 403,
   * 429 or 500; whatever it answers, the caller's key then has a record for today, no
   * other key's record changes, and a 429 changes nothing.
   */
  function Preview(io: PreviewIo, presets: map<string, Presets.Preset>, attempts: RateLimit.Attempts): (r: PreviewStep)
    ensures r.reply.status in {200, 400, 403, 429, 500}
    ensures r.reply.status == 429 ==> r.attempts == attempts
    ensures var ip := CallerKey(io.forwardedFor, io.realIp);
      ip in r.attempts && r.attempts[ip].date == io.today
    ensures forall k :: k in attempts && k != CallerKey(io.forwardedFor, io.realIp) ==> k in r.attempts && r.attempts[k] == attempts[k]
  {
    var ip := CallerKey(io.forwardedFor, io.realIp);
    var check := RateLimit.CheckStep(attempts, ip, io.today);
    if !check.allowed then PreviewStep(Failure(429, LimitError), check.attempts)
    else PreviewStep(Admitted(ip, io, presets), check.attempts)
  }

  /** The watermarking stage, one image at a time. */
  method WatermarkAll(images: seq<string>, watermark: Watermark.ImageIo) returns (out: seq<string>)
    ensures out == Watermarks(images, watermark)
  {
    out := [];
    for k := 0 to |images|
      invariant out == Watermarks(images[..k], watermark)
    {
      var img := Watermark.WatermarkAndDownscale(images[k], true, watermark);
      assert images[..k + 1] == images[..k] + [images[k]];
      out := out + [img];
    }
    assert images[..|images|] == images;
  }

  /** The route handler. */
  method Post(io: PreviewIo, presets: map<string, Presets.Preset>, limiter: RateLimit.RateLimiter) returns (reply: Reply)
    modifies limiter
    ensures PreviewStep(reply, limiter.previewAttempts) == Preview(io, presets, old(limiter.previewAttempts))
  {
    var forwarded := if io.forwardedFor.Some? then Some(SplitFirst(io.forwardedFor.value, ',')) else None;
    var ip := if Truthy(forwarded) then forwarded.value else OrDefault(io.realIp, UnknownCaller);
    var allowed := limiter.CheckRateLimit(ip, io.today);
    if !allowed {
      return Failure(429, LimitError);
    }
    if io.form.Err? {
      return Failure(500, PreviewFailed);
    }
    var photoFile := io.form.value.photo;
    var presetId := io.form.value.presetId;
    if photoFile.None? || !Truthy(presetId) {
      return Failure(400, "Photo and preset ID are required");
    }
    var preset := Presets.Lookup(presets, presetId.value);
    if preset.None? {
      return Failure(400, "Invalid preset");
    }
    if preset.value.requiresRefs {
      return Failure(403, PaidOnlyError);
    }
    var result := NbGemini.GenerateImages(PreviewOptions(photoFile.value, preset.value, io), io.images);
    if result.Err? {
      return Failure(500, PreviewFailed);
    }
    var watermarkedImages := WatermarkAll(result.value.images, io.watermark);
    var receipt := Watermark.CreatePreviewReceipt(PreviewData(ip, presetId.value, photoFile.value, io), io.encodeReceipt);
    reply := Success(PreviewReady(watermarkedImages, receipt, PreviewMessage));
  }

  // ---------------------------------------------------------------- caller key

  /** A forwarded chain whose first hop is non-empty is keyed by that hop alone. */
  lemma FirstHopIsKey(hop: string, rest: string, realIp: Option<string>)
    requires hop != "" && ',' !in hop
    ensures CallerKey(Some(hop + "," + rest), realIp) == hop
  {
    SplitAt(hop, rest, ',');
    assert hop + "," + rest == hop + [','] + rest;
  }

  /** Without a usable first hop the key is `x-real-ip` when it is non-empty, else "unknown". */
  lemma NoHopFallsBack(forwardedFor: Option<string>, realIp: Option<string>)
    requires forwardedFor.None? || forwardedFor.value == "" || forwardedFor.value[0] == ','
    ensures CallerKey(forwardedFor, realIp) == if Truthy(realIp) then realIp.value else UnknownCaller
  {
    if forwardedFor.Some? && forwardedFor.value != "" {
      assert SplitFirst(forwardedFor.value, ',') == "";
    }
  }

  // ---------------------------------------------------------------- the limit

  /** A refused call answers 429 whatever it carries: no form is read and no image is generated. */
  lemma RateLimitFirst(io: PreviewIo, presets: map<string, Presets.Preset>, attempts: RateLimit.Attempts, form: Result<Form, string>, images: NbGemini.ImageIo)
    requires !RateLimit.CheckStep(attempts, CallerKey(io.forwardedFor, io.realIp), io.today).allowed
    ensures Preview(io, presets, attempts) == PreviewStep(Failure(429, LimitError), attempts)
    ensures Preview(io.(form := form, images := images), presets, attempts) == Preview(io, presets, attempts)
  {
  }

  /**
   * Any call uses up the caller's preview for the day, whatever it answers: a second call
   * with the same key on the same day answers 429, even when the first one was a 400, a
   * 403 or a 500.
   */
  lemma OnePreviewPerKeyPerDay(first: PreviewIo, second: PreviewIo, presets: map<string, Presets.Preset>, attempts: RateLimit.Attempts)
    requires CallerKey(second.forwardedFor, second.realIp) == CallerKey(first.forwardedFor, first.realIp)
    requires second.today == first.today
    ensures Preview(second, presets, Preview(first, presets, attempts).attempts).reply == Failure(429, LimitError)
  {
    RateLimit.SecondCallSameDayRefused(attempts, CallerKey(first.forwardedFor, first.realIp), first.today);
  }

  // ---------------------------------------------------------------- admitted calls

  /** Presets that need reference photos are refused with 403, before any image is generated. */
  lemma PaidPresetsRefused(ip: string, io: PreviewIo, presets: map<string, Presets.Preset>, images: NbGemini.ImageIo)
    requires io.form.Ok? && io.form.value.photo.Some? && Truthy(io.form.value.presetId)
    requires io.form.value.presetId.value in presets && presets[io.form.value.presetId.value].requiresRefs
    ensures Admitted(ip, io, presets) == Failure(403, PaidOnlyError)
    ensures Admitted(ip, io.(images := images), presets) == Admitted(ip, io, presets)
  {
  }

  /** A preview never sends reference photos and always asks for low quality, one prompt per preset prompt. */
  lemma PreviewIsLowQualityWithoutReferences(photo: Photo, preset: Presets.Preset, io: PreviewIo)
    ensures var options := PreviewOptions(photo, preset, io);
      options.referenceImages.None? && options.quality == NbGemini.Low &&
      |options.prompts| == |preset.prompts| && options.baseImage == PhotoDataUri(photo, io.encodeBase64)
  {
  }

  /**
   * A successful preview answers 200 with one watermarked, downscaled image per prompt of
   * the preset, in order, and a receipt that reads back as the caller's hashed key, the
   * preset id, the time and the photo's audit hash.
   */
  lemma SuccessIsWatermarkedAndReceipted(ip: string, io: PreviewIo, presets: map<string, Presets.Preset>)
    requires io.form.Ok? && io.form.value.photo.Some? && Truthy(io.form.value.presetId)
    requires io.form.value.presetId.value in presets && !presets[io.form.value.presetId.value].requiresRefs
    requires NbGemini.ImagesOutcome(PreviewOptions(io.form.value.photo.value, presets[io.form.value.presetId.value], io), io.images).Ok?
    ensures var preset := presets[io.form.value.presetId.value];
      var result := NbGemini.ImagesOutcome(PreviewOptions(io.form.value.photo.value, preset, io), io.images).value;
      var reply := Admitted(ip, io, presets);
      reply.status == 200 && reply.body.PreviewReady? && reply.body.message == PreviewMessage &&
      |reply.body.images| == |preset.prompts| &&
      (forall i :: 0 <= i < |reply.body.images| ==> reply.body.images[i] == Watermark.Watermarked(result.images[i], true, io.watermark)) &&
      reply.body.receipt == io.encodeReceipt(Watermark.PreviewReceipt(PreviewData(ip, io.form.value.presetId.value, io.form.value.photo.value, io)))
  {
    var preset := presets[io.form.value.presetId.value];
    var options := PreviewOptions(io.form.value.photo.value, preset, io);
    NbGemini.OneImagePerPrompt(options, io.images);
  }

  /** Every 500 carries only the generic "Preview generation failed", whichever step threw. */
  lemma ServerErrorsAreGeneric(io: PreviewIo, presets: map<string, Presets.Preset>, attempts: RateLimit.Attempts)
    ensures var s := Preview(io, presets, attempts);
      s.reply.status == 500 ==> s.reply == Failure(500, PreviewFailed)
  {
  }

  /** The receipt keeps exactly the four fields of the preview it records. */
  lemma ReceiptNamesThePreview(ip: string, presetId: string, photo: Photo, io: PreviewIo)
    ensures var data := Watermark.ReceiptData(Watermark.PreviewReceipt(PreviewData(ip, presetId, photo, io)));
      data.presetId == presetId && data.timestamp == io.now &&
      data.ip <= io.sha256Text(ip) && data.hash <= io.sha256Hex(photo.bytes) &&
      (|io.sha256Text(ip)| >= HashLength ==> |data.ip| == HashLength)
  {
    Watermark.ReceiptKeepsData(PreviewData(ip, presetId, photo, io), PreviewData(ip, presetId, photo, io));
  }
}
