/**
 * What the API routes share: the uploaded form of the two generation routes, the JSON
 * replies they send (`NextResponse.json(body, { status })`), and what a route that reads
 * or writes the customer store leaves behind.
 */
module Http {
  import opened Wrappers
  import opened JsValues
  import DataUri
  import CreditLedger

  /** The number of hex digits of the photo digest kept for the audit trail. */
  const HashLength: nat := 16

  /** An uploaded file: its declared MIME type (`photoFile.type`) and its bytes. */
  datatype Photo = Photo(mimeType: string, bytes: Bytes)

  /** `formData.get("photo")` and `formData.get("presetId")`. */
  datatype Form = Form(photo: Option<Photo>, presetId: Option<string>)

  /** The uploaded photo as a data URI of its declared type. */
  function PhotoDataUri(photo: Photo, encodeBase64: Bytes -> string): string
  {
    DataUri.BuildDataUri(photo.mimeType, encodeBase64(photo.bytes))
  }

  /** The first 16 hex digits of a SHA-256 digest given in hex. */
  function ShortHash(hex: string): (h: string)
    ensures h <= hex
    ensures |hex| >= HashLength ==> |h| == HashLength
  {
    Substring(hex, HashLength)
  }

  /** The audit hash of an upload: the short form of its SHA-256 digest. */
  function AuditHash(photo: Photo, sha256Hex: Bytes -> string): string
  {
    ShortHash(sha256Hex(photo.bytes))
  }

  /** The response bodies the routes send. */
  datatype Body =
    | ErrorBody(error: string)
      /** `{ received: true }`, with `credits` when the event was a completed checkout. */
    | Received(credits: Option<int>)
      /** `{ url: session.url }`; Stripe may return a null URL. */
    | CheckoutUrl(url: Option<string>)
      /** `{ success: true, images, metadata: { model, processingTime } }`. */
    | Generated(images: seq<string>, model: string, processingTime: int)
      /** `{ success: true, images, receipt, message }`. */
    | PreviewReady(images: seq<string>, receipt: string, message: string)

  datatype Reply = Reply(status: nat, body: Body)

  /** `NextResponse.json({ error }, { status })`. */
  function Failure(status: nat, error: string): Reply
  {
    Reply(status, ErrorBody(error))
  }

  /** `NextResponse.json(body)`: status 200. */
  function Success(body: Body): Reply
  {
    Reply(200, body)
  }

  /** A route's reply and the customer store after it. */
  datatype StoreReply = StoreReply(reply: Reply, customers: map<string, CreditLedger.Customer>, order: seq<string>)
}
