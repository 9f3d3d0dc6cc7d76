/**
 * The preview watermark of lib/watermark.ts: the downscale arithmetic, the logo size and
 * bottom-right placement, the sequence of image-library calls with its catch-all
 * fallback to the input, and the preview receipt record.
 *
 * The image library, the logo file, Base64 and JSON are the `ImageIo` parameter.
 * Floating-point expressions are written as exact integer arithmetic:
 * `Math.round(a / b * 768)` is `(2 * a * 768 + b) / (2 * b)`, `Math.floor(x * 0.08)` is
 * `x * 8 / 100` and `Math.floor(x * 0.2)` is `x * 2 / 10`.
 */
module Watermark {
  import opened Wrappers
  import opened JsValues

  /** The longest side a downscaled preview keeps. */
  const MaxSide: nat := 768
  /** The side assumed when the image library reports no width or height. */
  const DefaultSide: nat := 1024
  /** The widest the logo is drawn. */
  const MaxLogoWidth: nat := 120

  datatype Size = Size(width: nat, height: nat)

  /** What the image library's `metadata()` reports; a missing dimension is None. */
  datatype ImageMeta = ImageMeta(width: Option<nat>, height: Option<nat>)

  /**
   * `n || d` on an optional number: the result is the reported side or the default, a
   * positive reported side wins, and the result is positive whenever the default is.
   */
  function SideOr(n: Option<nat>, d: nat): (r: nat)
    ensures Some(r) == n || r == d
    ensures n.Some? && n.value > 0 ==> r == n.value
    ensures d > 0 ==> r > 0
  {
    if n.Some? && n.value > 0 then n.value else d
  }

  /** `Math.round(side / longSide * 768)`: the nearest integer, halves rounded up. */
  function RoundedScale(side: nat, longSide: nat): (r: nat)
    requires longSide > 0
    ensures 2 * r * longSide <= 2 * side * MaxSide + longSide < 2 * (r + 1) * longSide
  {
    (2 * side * MaxSide + longSide) / (2 * longSide)
  }

  /**
   * The size the image is resized to: unchanged unless downscaling is asked for and a
   * side exceeds 768; then the longer side (the height on a tie) becomes 768 and the
   * other is scaled in proportion.
   */
  function ScaledSize(original: Size, shouldDownscale: bool): (r: Size)
    requires original.width > 0 && original.height > 0
    ensures !shouldDownscale ==> r == original
    ensures shouldDownscale ==> r.width <= MaxSide && r.height <= MaxSide
    ensures r == original || r.width == MaxSide || r.height == MaxSide
  {
    if shouldDownscale && (original.width > MaxSide || original.height > MaxSide) then
      if original.width > original.height then
        RoundedScaleAtMost(original.height, original.width);
        Size(MaxSide, RoundedScale(original.height, original.width))
      else
        RoundedScaleAtMost(original.width, original.height);
        Size(RoundedScale(original.width, original.height), MaxSide)
    else original
  }

  /** `Math.min(Math.floor(newWidth * 0.08), 120)`. */
  function LogoWidth(newWidth: nat): nat
  {
    if newWidth * 8 / 100 < MaxLogoWidth then newWidth * 8 / 100 else MaxLogoWidth
  }

  /** `Math.floor(logoWidth * 0.2)`. */
  function Padding(logoWidth: nat): nat
  {
    logoWidth * 2 / 10
  }

  /** The logo's offset from the top-left corner of the resized image. */
  datatype Offset = Offset(top: int, left: int)

  /** `top: newHeight - logoHeight - padding`, `left: newWidth - logoWidth - padding`. */
  function LogoOffset(size: Size, logoWidth: nat, logoHeight: nat, padding: nat): Offset
  {
    Offset(size.height - logoHeight - padding, size.width - logoWidth - padding)
  }

  // ---------------------------------------------------------------- the call sequence

  /**
   * The environment of `watermarkAndDownscale`: Base64 in both directions, the image
   * library's `metadata`, `resize` of the logo and the final resize-composite-png,
   * and reading `public/logo.webp`. A call that throws returns Err.
   */
  datatype ImageIo = ImageIo(
    decodeBase64: string -> Bytes,
    encodeBase64: Bytes -> string,
    metadata: Bytes -> Result<ImageMeta, string>,
    logoFile: Result<Bytes, string>,
    resizeLogo: (Bytes, nat) -> Result<Bytes, string>,
    render: RenderRequest -> Result<Bytes, string>)

  /** The final call: resize `image` to `size` and lay `logo` over it at `at`. */
  datatype RenderRequest = RenderRequest(image: Bytes, size: Size, logo: Bytes, at: Offset)

  /**
   * Everything up to the final call: the render request, or the error of the first call
   * that throws. An input without a comma fails; a request places the logo so that it
   * and its padding end exactly at the right and bottom edges, and with downscaling on
   * it is at most 768 on each side.
   */
  function Plan(imageBase64: string, shouldDownscale: bool, io: ImageIo): (r: Result<RenderRequest, string>)
    ensures ',' !in imageBase64 ==> r.Err?
    ensures r.Ok? ==> r.value.at.left >= 0 && io.metadata(r.value.logo).Ok?
    ensures r.Ok? ==> r.value.at.top + SideOr(io.metadata(r.value.logo).value.height, LogoWidth(r.value.size.width)) + Padding(LogoWidth(r.value.size.width)) == r.value.size.height
    ensures r.Ok? ==> r.value.at.left + LogoWidth(r.value.size.width) + Padding(LogoWidth(r.value.size.width)) == r.value.size.width
    ensures r.Ok? && shouldDownscale ==> r.value.size.width <= MaxSide && r.value.size.height <= MaxSide
  {
    match SplitSecond(imageBase64, ',')
    case None => Err("no Base64 payload")
    case Some(payload) =>
      var image := io.decodeBase64(payload);
      match io.metadata(image)
      case Err(e) => Err(e)
      case Ok(meta) =>
        PlanLogo(image, ScaledSize(Size(SideOr(meta.width, DefaultSide), SideOr(meta.height, DefaultSide)), shouldDownscale), io)
  }

  /** The logo steps, once the target size is known. */
  function PlanLogo(image: Bytes, size: Size, io: ImageIo): (r: Result<RenderRequest, string>)
    ensures r.Ok? ==> r.value.image == image && r.value.size == size
    ensures r.Ok? ==> r.value.at.left >= 0 && io.metadata(r.value.logo).Ok?
    ensures r.Ok? ==> r.value.at.top + SideOr(io.metadata(r.value.logo).value.height, LogoWidth(size.width)) + Padding(LogoWidth(size.width)) == size.height
    ensures r.Ok? ==> r.value.at.left + LogoWidth(size.width) + Padding(LogoWidth(size.width)) == size.width
  {
    match io.logoFile
    case Err(e) => Err(e)
    case Ok(logoFile) =>
      var logoWidth := LogoWidth(size.width);
      match io.resizeLogo(logoFile, logoWidth)
      case Err(e) => Err(e)
      case Ok(logo) =>
        match io.metadata(logo)
        case Err(e) => Err(e)
        case Ok(logoMeta) =>
          var logoHeight := SideOr(logoMeta.height, logoWidth);
          LogoAtBottomRight(size, logoHeight);
          Ok(RenderRequest(image, size, logo, LogoOffset(size, logoWidth, logoHeight, Padding(logoWidth))))
  }

  const PngPrefix: string := "data:image/png;base64,"

  /** The result of `watermarkAndDownscale`: a PNG data URI, or the input itself when any step throws. */
  function Watermarked(imageBase64: string, shouldDownscale: bool, io: ImageIo): (r: string)
    ensures r == imageBase64 || PngPrefix <= r
    ensures ',' !in imageBase64 ==> r == imageBase64
  {
    match Plan(imageBase64, shouldDownscale, io)
    case Err(_) => imageBase64
    case Ok(request) =>
      match io.render(request)
      case Err(_) => imageBase64
      case Ok(png) => PngPrefix + io.encodeBase64(png)
  }

  /** `watermarkAndDownscale(imageBase64, shouldDownscale)`, step by step. */
  method WatermarkAndDownscale(imageBase64: string, shouldDownscale: bool, io: ImageIo) returns (out: string)
    ensures out == Watermarked(imageBase64, shouldDownscale, io)
  {
    var base64Data := SplitSecond(imageBase64, ',');
    if base64Data.None? {
      return imageBase64;
    }
    var imageBuffer := io.decodeBase64(base64Data.value);
    var metadata := io.metadata(imageBuffer);
    if metadata.Err? {
      return imageBase64;
    }
    var originalWidth := SideOr(metadata.value.width, DefaultSide);
    var originalHeight := SideOr(metadata.value.height, DefaultSide);
    var newWidth := originalWidth;
    var newHeight := originalHeight;
    ghost var plan := Plan(imageBase64, shouldDownscale, io);
    if shouldDownscale && (originalWidth > MaxSide || originalHeight > MaxSide) {
      if originalWidth > originalHeight {
        newWidth := MaxSide;
        newHeight := RoundedScale(originalHeight, originalWidth);
      } else {
        newHeight := MaxSide;
        newWidth := RoundedScale(originalWidth, originalHeight);
      }
    }
    assert Size(newWidth, newHeight) == ScaledSize(Size(originalWidth, originalHeight), shouldDownscale);
    assert plan == PlanLogo(imageBuffer, Size(newWidth, newHeight), io);
    if io.logoFile.Err? {
      return imageBase64;
    }
    var logoWidth := LogoWidth(newWidth);
    var padding := Padding(logoWidth);
    var resizedLogo := io.resizeLogo(io.logoFile.value, logoWidth);
    if resizedLogo.Err? {
      return imageBase64;
    }
    var logoMetadata := io.metadata(resizedLogo.value);
    if logoMetadata.Err? {
      return imageBase64;
    }
    var logoHeight := SideOr(logoMetadata.value.height, logoWidth);
    var at := Offset(newHeight - logoHeight - padding, newWidth - logoWidth - padding);
    var processed := io.render(RenderRequest(imageBuffer, Size(newWidth, newHeight), resizedLogo.value, at));
    if processed.Err? {
      return imageBase64;
    }
    out := PngPrefix + io.encodeBase64(processed.value);
  }

  // ---------------------------------------------------------------- dimensions

  /** Without downscaling the size is kept. */
  lemma NoDownscaleKeepsSize(original: Size)
    requires original.width > 0 && original.height > 0
    ensures ScaledSize(original, false) == original
  {
  }

  /** An image with both sides at most 768 is kept even when downscaling is asked for. */
  lemma SmallImageKept(original: Size, shouldDownscale: bool)
    requires 0 < original.width <= MaxSide && 0 < original.height <= MaxSide
    ensures ScaledSize(original, shouldDownscale) == original
  {
  }

  /** A product with a positive factor has the sign of the other factor. */
  lemma SignOfFactor(x: int, y: int)
    requires y > 0
    ensures x * y <= 0 ==> x <= 0
    ensures x * y > 0 ==> x > 0
  {
  }

  /** Scaling a side no longer than the long side gives at most 768, and exactly 768 for the long side itself. */
  lemma RoundedScaleAtMost(side: nat, longSide: nat)
    requires 0 < longSide && side <= longSide
    ensures RoundedScale(side, longSide) <= MaxSide
    ensures side == longSide ==> RoundedScale(side, longSide) == MaxSide
  {
    var r := RoundedScale(side, longSide);
    assert side * MaxSide <= longSide * MaxSide;
    assert (2 * r - 2 * MaxSide - 1) * longSide == 2 * r * longSide - (2 * MaxSide + 1) * longSide;
    SignOfFactor(2 * r - 2 * MaxSide - 1, longSide);
    assert (2 * r + 2 - 2 * MaxSide - 1) * longSide == 2 * (r + 1) * longSide - (2 * MaxSide + 1) * longSide;
    SignOfFactor(2 * r + 2 - 2 * MaxSide - 1, longSide);
  }

  /**
   * Downscaling an image with a side over 768 makes the longer side exactly 768 (the
   * height when the sides are equal) and the other side the rounded proportional
   * length, which is at most 768.
   */
  lemma DownscaleFitsLongSide(original: Size)
    requires original.width > 0 && original.height > 0
    requires original.width > MaxSide || original.height > MaxSide
    ensures var s := ScaledSize(original, true);
      s.width <= MaxSide && s.height <= MaxSide &&
      (original.width > original.height ==> s.width == MaxSide) &&
      (original.width <= original.height ==> s.height == MaxSide) &&
      (original.width == original.height ==> s.width == MaxSide)
  {
    if original.width > original.height {
      RoundedScaleAtMost(original.height, original.width);
    } else {
      RoundedScaleAtMost(original.width, original.height);
    }
  }

  /**
   * The aspect ratio is kept up to rounding: the scaled short side differs from the
   * exact `short * 768 / long` by at most one half.
   */
  lemma DownscaleKeepsAspect(original: Size)
    requires original.width > 0 && original.height > 0
    requires original.width > MaxSide || original.height > MaxSide
    ensures var s := ScaledSize(original, true);
      var (short, long, newShort) := if original.width > original.height
        then (original.height, original.width, s.height) else (original.width, original.height, s.width);
      -long <= 2 * (newShort * long - short * MaxSide) <= long
  {
  }

  // ---------------------------------------------------------------- logo

  /** The logo is 8% of the width, rounded down, capped at 120; the padding is 20% of the logo, rounded down. */
  lemma LogoSize(newWidth: nat)
    ensures LogoWidth(newWidth) <= MaxLogoWidth
    ensures LogoWidth(newWidth) < MaxLogoWidth ==>
      LogoWidth(newWidth) * 100 <= newWidth * 8 < (LogoWidth(newWidth) + 1) * 100
    ensures newWidth * 8 >= MaxLogoWidth * 100 ==> LogoWidth(newWidth) == MaxLogoWidth
    ensures Padding(LogoWidth(newWidth)) * 10 <= LogoWidth(newWidth) * 2 < (Padding(LogoWidth(newWidth)) + 1) * 10
  {
  }

  /**
   * The logo's right edge plus the padding meets the image's right edge, its bottom edge
   * plus the padding meets the bottom, and it never starts left of the image.
   */
  lemma LogoAtBottomRight(size: Size, logoHeight: nat)
    ensures var w := LogoWidth(size.width); var p := Padding(w);
      var at := LogoOffset(size, w, logoHeight, p);
      at.left + w + p == size.width && at.top + logoHeight + p == size.height && at.left >= 0
  {
    var w := LogoWidth(size.width);
    assert w * 100 <= size.width * 8;
    assert Padding(w) * 10 <= w * 2;
  }

  // ---------------------------------------------------------------- call sequence

  /** Any call that throws makes the result the input, unchanged. */
  lemma FailureReturnsInput(imageBase64: string, shouldDownscale: bool, io: ImageIo)
    requires Plan(imageBase64, shouldDownscale, io).Err?
      || io.render(Plan(imageBase64, shouldDownscale, io).value).Err?
    ensures Watermarked(imageBase64, shouldDownscale, io) == imageBase64
  {
  }

  /** An input with no comma has no Base64 payload, and comes back unchanged. */
  lemma NoPayloadReturnsInput(imageBase64: string, shouldDownscale: bool, io: ImageIo)
    requires ',' !in imageBase64
    ensures Watermarked(imageBase64, shouldDownscale, io) == imageBase64
  {
  }

  /**
   * When every call succeeds the image is resized to `ScaledSize` of its reported size,
   * the logo sits at the bottom right, and the result is a PNG data URI.
   */
  lemma SuccessIsScaledPng(imageBase64: string, shouldDownscale: bool, io: ImageIo)
    requires Plan(imageBase64, shouldDownscale, io).Ok?
    requires io.render(Plan(imageBase64, shouldDownscale, io).value).Ok?
    ensures var request := Plan(imageBase64, shouldDownscale, io).value;
      var meta := io.metadata(request.image).value;
      request.size == ScaledSize(Size(SideOr(meta.width, DefaultSide), SideOr(meta.height, DefaultSide)), shouldDownscale)
      && request.at.left + LogoWidth(request.size.width) + Padding(LogoWidth(request.size.width)) == request.size.width
      && PngPrefix <= Watermarked(imageBase64, shouldDownscale, io)
  {
  }

  // ---------------------------------------------------------------- receipt

  /** The argument of `createPreviewReceipt`. */
  datatype PreviewData = PreviewData(ip: string, presetId: string, timestamp: string, hash: string)

  /** The receipt object `{ ...data, type: "preview", version: "1.0" }`. */
  datatype Receipt = Receipt(ip: string, presetId: string, timestamp: string, hash: string, kind: string, version: string)

  function PreviewReceipt(data: PreviewData): (r: Receipt)
    ensures r.kind == "preview" && r.version == "1.0"
  {
    Receipt(data.ip, data.presetId, data.timestamp, data.hash, "preview", "1.0")
  }

  /** The data fields of a receipt. */
  function ReceiptData(r: Receipt): PreviewData
  {
    PreviewData(r.ip, r.presetId, r.timestamp, r.hash)
  }

  /** `createPreviewReceipt(data)`: the receipt, serialised by `encode` (JSON, then Base64). */
  function CreatePreviewReceipt(data: PreviewData, encode: Receipt -> string): string
  {
    encode(PreviewReceipt(data))
  }

  /**
   * The serialised receipt reads back, through any `decode` that inverts `encode`, as a
   * "preview" receipt of version "1.0" carrying the input's fields.
   */
  lemma ReceiptReadsBack(data: PreviewData, encode: Receipt -> string, decode: string -> Receipt)
    requires forall receipt :: decode(encode(receipt)) == receipt
    ensures var r := decode(CreatePreviewReceipt(data, encode));
      ReceiptData(r) == data && r.kind == "preview" && r.version == "1.0"
  {
    assert decode(encode(PreviewReceipt(data))) == PreviewReceipt(data);
  }

  /** The receipt carries every input field unchanged, and so two different inputs never share a receipt. */
  lemma ReceiptKeepsData(data: PreviewData, other: PreviewData)
    ensures ReceiptData(PreviewReceipt(data)) == data
    ensures other != data ==> PreviewReceipt(other) != PreviewReceipt(data)
  {
    if PreviewReceipt(other) == PreviewReceipt(data) {
      assert ReceiptData(PreviewReceipt(other)) == ReceiptData(PreviewReceipt(data));
    }
  }
}
