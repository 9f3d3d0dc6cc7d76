/**
 * The paid generation route of app/api/generate/route.ts. It authenticates, validates the
 * form and the preset, finds the caller's email and Stripe customer, charges one credit,
 * loads the reference photos a preset may need, and generates at high quality. A charge
 * is never refunded: a generation that fails after it leaves the credit spent.
 *
 * The preset table is a parameter (`PRESETS` in the running program); Clerk, the file
 * reads, SHA-256, Base64 and the image service are parameters too.
 */
module GenerateRoute {
  import opened Wrappers
  import opened JsValues
  import opened CreditLedger
  import opened Http
  import opened DataUri
  import Presets
  import NbGemini

  const ReferenceMimeType: string := "image/jpeg"
  /**
   * The environment of one call:
   * - `auth` is the `userId` that `auth()` returns, Err when `auth()` throws;
   * - `form` is `req.formData()`, Err when parsing throws;
   * - `primaryEmail(userId)` is the Clerk user's primary email, Err when the lookup throws;
   * - `freshCustomerId` is the id Stripe gives a customer it creates;
   * - `refA` and `refB` are the reads of the two reference photos;
   * - `scenes` gives the scene sentences of the prompts;
   * - `now` is the ISO time of the charge.
   */
  datatype GenerateIo = GenerateIo(
    auth: Result<Option<string>, string>,
    form: Result<Form, string>,
    primaryEmail: string -> Result<Option<string>, string>,
    freshCustomerId: string,
    encodeBase64: Bytes -> string,
    sha256Hex: Bytes -> string,
    now: string,
    refA: Result<Bytes, string>,
    refB: Result<Bytes, string>,
    scenes: (string, nat) -> string,
    images: NbGemini.ImageIo)
  {
    /** `auth()` returned a non-empty `userId`. */
    predicate SignedIn()
    {
      auth.Ok? && Truthy(auth.value)
    }
  }

  /**
   * `referenceImages`: the two reference photos as JPEG data URIs when the preset needs
   * them and both reads succeed; undefined otherwise, and a failed read is not an error.
   * The two URIs read back as JPEG images carrying the two photos' Base64.
   */
  function ReferenceImages(requiresRefs: bool, refA: Result<Bytes, string>, refB: Result<Bytes, string>, encodeBase64: Bytes -> string): (r: Option<seq<string>>)
    ensures r.Some? <==> requiresRefs && refA.Ok? && refB.Ok?
    ensures r.Some? ==> |r.value| == 2 && ExtractMimeType(r.value[0]) == ReferenceMimeType && ExtractMimeType(r.value[1]) == ReferenceMimeType
    ensures r.Some? && ',' !in encodeBase64(refA.value) ==> ExtractBase64(r.value[0]) == Some(encodeBase64(refA.value))
    ensures r.Some? && ',' !in encodeBase64(refB.value) ==> ExtractBase64(r.value[1]) == Some(encodeBase64(refB.value))
  {
    if requiresRefs && refA.Ok? && refB.Ok? then
      Some([BuildDataUri(ReferenceMimeType, encodeBase64(refA.value)), BuildDataUri(ReferenceMimeType, encodeBase64(refB.value))])
    else None
  }

  /** The options `generateImages` is called with: the photo, the references, the preset's prompts, high quality. */
  function RequestOptions(photo: Photo, preset: Presets.Preset, io: GenerateIo): NbGemini.GenerationOptions
  {
    NbGemini.GenerationOptions(
      PhotoDataUri(photo, io.encodeBase64),
      ReferenceImages(preset.requiresRefs, io.refA, io.refB, io.encodeBase64),
      Presets.PromptTexts(preset.prompts, io.scenes),
      NbGemini.High)
  }

  /**
   * What the request reaches once email and customer are known: the charge, then
   * generation. It answers 200, 402 or 500, never adds or removes a customer, and a
   * refused charge changes nothing.
   */
  function ChargeAndGenerate(lookup: Lookup, photo: Photo, presetId: string, preset: Presets.Preset, io: GenerateIo): (r: StoreReply)
    ensures r.reply.status in {200, 402, 500}
    ensures r.customers.Keys == lookup.customers.Keys && r.order == lookup.order
    ensures r.reply.status == 402 ==> r.customers == lookup.customers
    ensures r.reply.status == 200 ==> r.reply.body.Generated?
  {
    var charge := Decrement(lookup.customers, lookup.customerId, presetId, AuditHash(photo, io.sha256Hex), |photo.bytes|, io.now);
    match charge.result
    case Err(_) => StoreReply(Failure(500, "Generation failed"), charge.customers, lookup.order)
    case Ok(charged) =>
      if !charged then StoreReply(Failure(402, "Insufficient credits"), charge.customers, lookup.order)
      else match NbGemini.ImagesOutcome(RequestOptions(photo, preset, io), io.images)
        case Err(_) => StoreReply(Failure(500, "Generation failed"), charge.customers, lookup.order)
        case Ok(result) =>
          StoreReply(Success(Generated(result.images, result.model, result.processingTime)), charge.customers, lookup.order)
  }

  /**
   * `POST` as a function of the store before the call. It answers 200, 400, 401, 402 or
   * 500, 401 exactly when `auth()` gives no user, and no customer is ever removed. A throw
   * from `auth()` is caught like every other and answers the generic 500.
   */
  function Generate(io: GenerateIo, presets: map<string, Presets.Preset>, customers: map<string, Customer>, order: seq<string>): (r: StoreReply)
    ensures r.reply.status in {200, 400, 401, 402, 500}
    ensures r.reply.status == 401 <==> io.auth.Ok? && !Truthy(io.auth.value)
    ensures customers.Keys <= r.customers.Keys
    ensures r.reply.status == 200 ==> r.reply.body.Generated?
  {
    if io.auth.Err? then StoreReply(Failure(500, "Generation failed"), customers, order)
    else if !Truthy(io.auth.value) then StoreReply(Failure(401, "Unauthorized"), customers, order)
    else match io.form
      case Err(_) => StoreReply(Failure(500, "Generation failed"), customers, order)
      case Ok(form) =>
        if form.photo.None? || !Truthy(form.presetId) then StoreReply(Failure(400, "Photo and preset ID are required"), customers, order)
        else match Presets.Lookup(presets, form.presetId.value)
          case None => StoreReply(Failure(400, "Invalid preset"), customers, order)
          case Some(preset) =>
            match io.primaryEmail(io.auth.value.value)
            case Err(_) => StoreReply(Failure(500, "Generation failed"), customers, order)
            case Ok(email) =>
              if !Truthy(email) then StoreReply(Failure(400, "No email address found"), customers, order)
              else
                var lookup := GetOrCreate(customers, order, email.value, io.freshCustomerId);
                ChargeAndGenerate(lookup, form.photo.value, form.presetId.value, preset, io)
  }

  /** The route handler. */
  method Post(io: GenerateIo, presets: map<string, Presets.Preset>, store: CustomerStore) returns (reply: Reply)
    requires io.freshCustomerId !in store.customers
    modifies store
    ensures StoreReply(reply, store.customers, store.order) == Generate(io, presets, old(store.customers), old(store.order))
  {
    if io.auth.Err? {
      return Failure(500, "Generation failed");
    }
    var userId := io.auth.value;
    if !Truthy(userId) {
      return Failure(401, "Unauthorized");
    }
    if io.form.Err? {
      return Failure(500, "Generation failed");
    }
    var photoFile := io.form.value.photo;
    var presetId := io.form.value.presetId;
    if photoFile.None? || !Truthy(presetId) {
      return Failure(400, "Photo and preset ID are required");
    }
    var preset := Presets.Lookup(presets, presetId.value);
    if preset.None? {
      return Failure(400, "Invalid preset");
    }
    var email := io.primaryEmail(userId.value);
    if email.Err? {
      return Failure(500, "Generation failed");
    }
    if !Truthy(email.value) {
      return Failure(400, "No email address found");
    }
    ghost var lookup := GetOrCreate(store.customers, store.order, email.value.value, io.freshCustomerId);
    var customerId := store.GetOrCreateStripeCustomer(email.value.value, io.freshCustomerId);
    var photoBase64 := PhotoDataUri(photoFile.value, io.encodeBase64);
    var hash := AuditHash(photoFile.value, io.sha256Hex);
    var success := store.DecrementCredit(customerId, presetId.value, hash, |photoFile.value.bytes|, io.now);
    if success.Err? {
      // The customer was just found or created live, so the charge cannot fail to read it.
      assert false;
    }
    if !success.value {
      return Failure(402, "Insufficient credits");
    }
    var referenceImages := ReferenceImages(preset.value.requiresRefs, io.refA, io.refB, io.encodeBase64);
    var options := NbGemini.GenerationOptions(photoBase64, referenceImages, Presets.PromptTexts(preset.value.prompts, io.scenes), NbGemini.High);
    assert options == RequestOptions(photoFile.value, preset.value, io);
    var result := NbGemini.GenerateImages(options, io.images);
    if result.Err? {
      return Failure(500, "Generation failed");
    }
    reply := Success(Generated(result.value.images, result.value.model, result.value.processingTime));
  }

  // ---------------------------------------------------------------- ordering

  /**
   * Authentication comes first: a throw from `auth()` answers the generic 500 and a missing
   * user 401, and in both cases nothing else is looked at.
   */
  lemma UnauthorizedFirst(io: GenerateIo, presets: map<string, Presets.Preset>, customers: map<string, Customer>, order: seq<string>)
    requires !io.SignedIn()
    ensures io.auth.Err? ==> Generate(io, presets, customers, order) == StoreReply(Failure(500, "Generation failed"), customers, order)
    ensures io.auth.Ok? ==> Generate(io, presets, customers, order) == StoreReply(Failure(401, "Unauthorized"), customers, order)
  {
  }

  /** The charge and the generation never answer 400. */
  lemma ChargeNeverAnswers400(lookup: Lookup, photo: Photo, presetId: string, preset: Presets.Preset, io: GenerateIo)
    ensures ChargeAndGenerate(lookup, photo, presetId, preset, io).reply.status != 400
  {
  }

  /** Every 400 (missing photo or preset id, unknown preset, no email) is answered before any customer is created or charged. */
  lemma ValidationBeforeCharge(io: GenerateIo, presets: map<string, Presets.Preset>, customers: map<string, Customer>, order: seq<string>)
    ensures var s := Generate(io, presets, customers, order);
      s.reply.status == 400 ==> s.customers == customers && s.order == order
  {
    if io.SignedIn() && io.form.Ok? && io.form.value.photo.Some? && Truthy(io.form.value.presetId)
      && io.form.value.presetId.value in presets && io.primaryEmail(io.auth.value.value).Ok?
      && Truthy(io.primaryEmail(io.auth.value.value).value)
    {
      var lookup := GetOrCreate(customers, order, io.primaryEmail(io.auth.value.value).value.value, io.freshCustomerId);
      ChargeNeverAnswers400(lookup, io.form.value.photo.value, io.form.value.presetId.value, presets[io.form.value.presetId.value], io);
    }
  }

  /** Every 500 carries only the generic "Generation failed", whichever step threw, `auth()` included. */
  lemma ServerErrorsAreGeneric(io: GenerateIo, presets: map<string, Presets.Preset>, customers: map<string, Customer>, order: seq<string>)
    ensures var s := Generate(io, presets, customers, order);
      s.reply.status == 500 ==> s.reply == Failure(500, "Generation failed")
  {
  }

  /** The state after the caller's customer is known: the lookup and the preset in effect. */
  ghost predicate ReachesCharge(io: GenerateIo, presets: map<string, Presets.Preset>, customers: map<string, Customer>, order: seq<string>, lookup: Lookup, preset: Presets.Preset)
  {
    io.SignedIn() && io.form.Ok? && io.form.value.photo.Some? && Truthy(io.form.value.presetId)
    && Presets.Lookup(presets, io.form.value.presetId.value) == Some(preset)
    && io.primaryEmail(io.auth.value.value).Ok? && Truthy(io.primaryEmail(io.auth.value.value).value)
    && lookup == GetOrCreate(customers, order, io.primaryEmail(io.auth.value.value).value.value, io.freshCustomerId)
  }

  /** Once the caller's customer is known, the rest of the request is the charge and then the generation. */
  lemma ChargeComesNext(io: GenerateIo, presets: map<string, Presets.Preset>, customers: map<string, Customer>, order: seq<string>, lookup: Lookup, preset: Presets.Preset)
    requires ReachesCharge(io, presets, customers, order, lookup, preset)
    ensures Generate(io, presets, customers, order) == ChargeAndGenerate(lookup, io.form.value.photo.value, io.form.value.presetId.value, preset, io)
  {
  }

  /** A refused charge answers 402 whatever the image service would do, and changes no balance. */
  lemma InsufficientCreditsNeverGenerates(io: GenerateIo, presets: map<string, Presets.Preset>, customers: map<string, Customer>, order: seq<string>, lookup: Lookup, preset: Presets.Preset, images: NbGemini.ImageIo)
    requires ReachesCharge(io, presets, customers, order, lookup, preset)
    requires AtMostZero(ParseCredits(lookup.customers[lookup.customerId].metadata).credits)
    ensures Generate(io, presets, customers, order) == StoreReply(Failure(402, "Insufficient credits"), lookup.customers, lookup.order)
    ensures Generate(io.(images := images), presets, customers, order) == Generate(io, presets, customers, order)
  {
    var photo := io.form.value.photo.value;
    ChargeComesNext(io, presets, customers, order, lookup, preset);
    assert ReachesCharge(io.(images := images), presets, customers, order, lookup, preset);
    ChargeComesNext(io.(images := images), presets, customers, order, lookup, preset);
    DecrementRefusesWhenEmpty(lookup.customers, lookup.customerId, io.form.value.presetId.value, AuditHash(photo, io.sha256Hex), |photo.bytes|, io.now);
  }

  /**
   * With a credit to spend, the caller's customer is charged one credit, stamped with the
   * preset, the photo's size and its audit hash, before generation starts.
   */
  lemma ChargeStampsAudit(lookup: Lookup, photo: Photo, presetId: string, preset: Presets.Preset, io: GenerateIo)
    requires lookup.customerId in lookup.customers && !lookup.customers[lookup.customerId].deleted
    requires !AtMostZero(ParseCredits(lookup.customers[lookup.customerId].metadata).credits)
    requires presetId != "" && AuditHash(photo, io.sha256Hex) != "" && io.now != ""
    ensures var charge := Decrement(lookup.customers, lookup.customerId, presetId, AuditHash(photo, io.sha256Hex), |photo.bytes|, io.now);
      var before := ParseCredits(lookup.customers[lookup.customerId].metadata);
      var after := ParseCredits(charge.customers[lookup.customerId].metadata);
      charge.result == Ok(true) &&
      after.credits == Plus(before.credits, -1) && after.lastPreset == Some(presetId) &&
      after.lastHash == Some(AuditHash(photo, io.sha256Hex)) && after.lastBytes == Some(NatToString(|photo.bytes|))
  {
    DecrementCharges(lookup.customers, lookup.customerId, presetId, AuditHash(photo, io.sha256Hex), |photo.bytes|, io.now);
  }

  /** With a credit to spend, a failed generation answers 500 and keeps the charge: nothing is refunded. */
  lemma FailedGenerationKeepsCharge(lookup: Lookup, photo: Photo, presetId: string, preset: Presets.Preset, io: GenerateIo)
    requires lookup.customerId in lookup.customers && !lookup.customers[lookup.customerId].deleted
    requires !AtMostZero(ParseCredits(lookup.customers[lookup.customerId].metadata).credits)
    requires presetId != "" && AuditHash(photo, io.sha256Hex) != "" && io.now != ""
    requires NbGemini.ImagesOutcome(RequestOptions(photo, preset, io), io.images).Err?
    ensures var charge := Decrement(lookup.customers, lookup.customerId, presetId, AuditHash(photo, io.sha256Hex), |photo.bytes|, io.now);
      ChargeAndGenerate(lookup, photo, presetId, preset, io) == StoreReply(Failure(500, "Generation failed"), charge.customers, lookup.order)
  {
    ChargeStampsAudit(lookup, photo, presetId, preset, io);
  }

  /** With a credit to spend and a successful generation, the answer holds one image per prompt of the preset. */
  lemma SuccessAfterCharge(lookup: Lookup, photo: Photo, presetId: string, preset: Presets.Preset, io: GenerateIo)
    requires lookup.customerId in lookup.customers && !lookup.customers[lookup.customerId].deleted
    requires !AtMostZero(ParseCredits(lookup.customers[lookup.customerId].metadata).credits)
    requires presetId != "" && AuditHash(photo, io.sha256Hex) != "" && io.now != ""
    requires NbGemini.ImagesOutcome(RequestOptions(photo, preset, io), io.images).Ok?
    ensures var s := ChargeAndGenerate(lookup, photo, presetId, preset, io);
      s.reply.status == 200 && s.reply.body.Generated? && |s.reply.body.images| == |preset.prompts| &&
      s.customers == Decrement(lookup.customers, lookup.customerId, presetId, AuditHash(photo, io.sha256Hex), |photo.bytes|, io.now).customers
  {
    ChargeStampsAudit(lookup, photo, presetId, preset, io);
    NbGemini.OneImagePerPrompt(RequestOptions(photo, preset, io), io.images);
  }

  /** Reference photos are sent only for presets that need them, and a failed read just leaves them out. */
  lemma ReferencesOnlyWhenRequired(photo: Photo, preset: Presets.Preset, io: GenerateIo)
    ensures var options := RequestOptions(photo, preset, io);
      (options.referenceImages.Some? <==> preset.requiresRefs && io.refA.Ok? && io.refB.Ok?) &&
      (options.referenceImages.Some? ==> |options.referenceImages.value| == 2) &&
      options.quality == NbGemini.High &&
      options.prompts == Presets.PromptTexts(preset.prompts, io.scenes)
  {
  }
}
