# A verified model of the photo app's credit ledger and request flows

This project models the core of a Next.js photo-styling app in Dafny. Users upload a photo, pick a style preset and get AI-generated images. Signed-in users pay one credit per generation; anonymous users get watermarked, low-quality previews, limited to one per day.

## The modelled core

- **The credit ledger** (`CreditLedger`, lib/stripe.ts). A customer's balance is kept in Stripe customer metadata, a string-to-string map.
  - `credits` and `total_gens` are parsed with JavaScript `parseInt`, with "0" as the default. A value that does not parse is `NaN`.
  - `decrementCredit` refuses when the balance is at most 0. Otherwise it takes one credit, adds one generation and stamps the audit fields.
  - `incrementCredits` adds to the balance and stamps `last_event_id` without checking it first.
  - `getOrCreateStripeCustomer` finds the customer by email or creates one with 5 credits.
  - The store is the class `CustomerStore`. Its methods are tied to pure step functions on the customer map.
  - A metadata update merges keys into the record, and a key posted as "" is removed.
- **The Stripe webhook** (`WebhookRoute`). It checks the signature header, the secret and the signature, in that order. It acts only on completed checkouts: it sums 1, 5 or 10 credits per unit of the three credit-pack prices and grants the total when it is positive.
- **The paid generation route** (`GenerateRoute`). It authenticates, validates the form and the preset, and finds or creates the customer. It then charges one credit, loads reference photos when the preset needs them, and generates at high quality. A failure after the charge keeps the charge.
- **The anonymous preview route** (`PreviewRoute`). The caller key comes from the forwarding headers. The rate-limit slot is spent before anything else is checked. Presets that need reference photos are refused. Every result image is watermarked and downscaled, and the reply carries a receipt.
- **The checkout route** (`CheckoutRoute`). It authenticates, checks the price against an allowlist of the three credit-pack prices, finds or creates the customer and opens a session for one unit.
- **The rate limiter** (`RateLimit`, lib/rate-limit.ts): the process-wide `previewAttempts` map as a class, with `checkRateLimit` and `resetRateLimit`.
- **The presets and pricing tables** (`Presets`, `PresetTable`, `Pricing`) and their lookups.
- **Watermarking** (`Watermark`, lib/watermark.ts): the downscale and logo-placement arithmetic, the fall-back to the input on any error, and the preview receipt.
- **The image and video generation clients** (`NbGemini`, `VideoGeneration`, `DataUri`):
  - the data-URI helpers (the base64 form of section 3 of RFC 2397);
  - the request parts;
  - reading the response;
  - collecting results and tokens across prompts;
  - the bounded video poll loop;
  - the download with its optional trim.
- **The two metadata scripts** (`MigrateMetadata`, `AddVideoCredits`, sharing the loop in `CustomerScripts`). Each pages through all customers and decides per customer whether to skip it or post an update. It posts the update unless the run is dry, and it counts customers, writes, skips and errors.

Stripe's customer store is modelled as a reliable in-memory map of customers (see "## Left out"). Every other external service is a parameter of the model, given as a function or a value that may be an error: Clerk, Stripe's checkout sessions and signature check, the Gemini and Veo SDKs, `fetch`, sharp, ffmpeg, the file system, SHA-256, Base64, JSON and the clock.

Three details of the code are modelled as written:
- The webhook and the checkout allowlist use the `NEXT_PUBLIC_STRIPE_PRICE_GEN_1`, `_GEN_5` and `_GEN_10` variables. They do not use the six pack prices of lib/pricing.ts, so a pack price id is accepted by checkout only when it equals one of those three.
- The add-video-credits script treats a `video_free_credits` of "0" as not granted, so a customer who spent the grant is granted two credits again on a later run.
- The paid route loads the same two host photos, public/refs/withus_guyA.jpg and withus_guyB.jpg, for every preset that requires references (app/api/generate/route.ts:84-99). So the ILAC campus preset is sent the "With Us" photos, although its entry describes ILAC background photos (lib/presets.ts:82).

## Model

| member | source | states |
|---|---|---|
| JsValues.NatToString | lib/stripe.ts:144-148 | The decimal spelling of a number is non-empty, all digits, and has no leading zero. |
| JsValues.ParseInt | lib/stripe.ts:78-79 | `parseInt` of a string gives NaN exactly when no digit follows the optional sign. |
| JsValues.ParseIntOfIntToString | lib/stripe.ts:99-104 | `parseInt(String(i))` is `i` for every integer, so a counter written by the ledger reads back unchanged (exact integers; see "## Left out" for the double-precision bound). |
| JsValues.ParseIntOfNumToString | lib/stripe.ts:134-145 | The same round trip for every number the ledger can hold, NaN included (exact integers, as above). |
| JsValues.SplitFirst | app/api/preview/route.ts:17 | `split(c)[0]` is a prefix with no `c`: the whole string when there is no `c`, else the text before the first `c`. |
| JsValues.SplitSecond | lib/nb-gemini.ts:48-50 | `split(c)[1]` is undefined exactly when the string has no `c`. |
| JsValues.Substring | app/api/generate/route.ts:61-65 | `substring(0, n)` is a prefix of length `n`, or the whole string when it is shorter. |
| JsValues.IndexOf | lib/nb-gemini.ts:53 | The index found holds `c` and no earlier position does; None means `c` does not occur. |
| JsValues.SplitAt | app/api/preview/route.ts:17 | Splitting `a + c + b`, where `a` has no `c`, gives `a` first and then `b` up to its own `c`. |
| DataUri.ExtractBase64 | lib/nb-gemini.ts:48-50 | The payload is undefined exactly when there is no comma, and it never contains a comma. |
| DataUri.MatchAt | lib/nb-gemini.ts:52-55 | A match at a position is "data:", then a non-empty group without ';', then ';'. |
| DataUri.MatchAtComplete | lib/nb-gemini.ts:52-55 | Conversely, every such match is the one found: the group ends at the first ';'. |
| DataUri.FirstMatchFromIsLeftmost | lib/nb-gemini.ts:53 | The scan returns the leftmost match, and nothing exactly when there is no match. |
| DataUri.NoSemicolonDefaultsToJpeg | lib/video-generation.ts:45-48 | Without any ';' the MIME type falls back to "image/jpeg". |
| DataUri.MimeTypeOfPrefixed | lib/nb-gemini.ts:52-55 | A URI starting "data:" with a non-empty type before the first ';' yields that type. |
| DataUri.ExtractMimeType | lib/nb-gemini.ts:52-55 | The MIME type is never empty and has no ';': it is either "image/jpeg" or the group of a `data:<type>;` match in the URI. |
| DataUri.BuildDataUri | lib/nb-gemini.ts:118-120 | A built URI starts with "data:", and reading it back gives the type it was built with (a non-empty type without ';') and the payload (when neither part has a comma). |
| CreditLedger.Merge | lib/stripe.ts:101-107 | After an update, a posted key reads as its posted value ("" reads as absent), and every other key is unchanged. |
| CreditLedger.GetCustomerCredits | lib/stripe.ts:69-90 | Succeeds exactly for a listed customer that is not deleted; a missing one is the "no such customer" error, distinct from a deleted one; missing `credits` reads as 0. |
| CreditLedger.ParseCredits | lib/stripe.ts:78-89 | Missing or empty counters read as 0, a NaN counter comes only from a non-empty stored text, and the audit fields read as stored. |
| CreditLedger.FindByEmail | lib/stripe.ts:53-57 | A customer found is listed, live and has the email, and no customer created after it is live with that email; None means no listed live customer has it. |
| CreditLedger.GetOrCreate | lib/stripe.ts:49-67 | The customer returned is in the store, live and has the requested email; the store gains at most the fresh id, and existing records are unchanged. |
| CreditLedger.GetOrCreateOnlyAdds | lib/stripe.ts:59-66 | Existing records are untouched; a created customer is the fresh id, with 5 credits, and nothing else is added. |
| CreditLedger.CustomerStore.constructor | lib/stripe.ts:12-14 | The store for the module-level Stripe client starts with the given customers and creation order. |
| CreditLedger.CustomerStore.GetOrCreateStripeCustomer | lib/stripe.ts:49-67 | Returns an existing customer and changes nothing, or appends one new customer with the initial metadata. |
| CreditLedger.CustomerStore.IncrementCredits | lib/stripe.ts:92-109 | The store after the call is the one-step `Increment` of the store before it. |
| CreditLedger.CustomerStore.DecrementCredit | lib/stripe.ts:111-155 | The store after the call is the one-step `Decrement` of the store before it. |
| CreditLedger.ChargeUpdate | lib/stripe.ts:128-151 | No update exactly when the balance is at most 0; otherwise six keys whose counters parse back as credits - 1 and total_gens + 1, the byte count as the number, and the given preset, hash and time. |
| CreditLedger.GrantUpdate | lib/stripe.ts:99-107 | The grant posts exactly three keys: credits that parse back as credits + amount, total_gens unchanged, and the event id. |
| CreditLedger.Decrement | lib/stripe.ts:111-155 | The charge reads a result exactly for a live customer; anything but `true` writes nothing; no key is added or removed and no other customer changes. |
| CreditLedger.Increment | lib/stripe.ts:92-109 | The grant succeeds exactly for a live customer; an error writes nothing; no key is added or removed and no other customer changes. |
| CreditLedger.MissingFieldsReadAsZero | lib/stripe.ts:78-79 | Missing or empty `credits` and `total_gens` read as 0, not as an error. |
| CreditLedger.InitialBalance | lib/stripe.ts:59-66 | A new customer reads as 5 credits, 0 generations and no audit fields. |
| CreditLedger.DecrementFailsWithoutCustomer | lib/stripe.ts:72-76 | A missing or deleted customer makes the charge fail and nothing is written. |
| CreditLedger.DecrementRefusesWhenEmpty | lib/stripe.ts:128-131 | A balance at most 0 returns false and nothing is written. |
| CreditLedger.MergeChargeCounters | lib/stripe.ts:142-151 | The charge update sets both counters and keeps `last_event_id`. |
| CreditLedger.MergeChargeAudit | lib/stripe.ts:146-149 | The charge update sets last_gen_at, last_preset, last_bytes and last_hash. |
| CreditLedger.ChargedView | lib/stripe.ts:134-151 | After a charge the record reads as one credit less, one generation more, the new audit fields, and the old event id. |
| CreditLedger.DecrementCharges | lib/stripe.ts:133-153 | A charge with credit left returns true, changes only that customer, and leaves credits - 1, total_gens + 1 and the stamped preset, hash, time and byte count, with the byte count reading back as the number. |
| CreditLedger.MergeGrantShape | lib/stripe.ts:101-107 | The grant update sets its three keys and keeps the four charge audit fields. |
| CreditLedger.GrantedView | lib/stripe.ts:97-107 | After a grant the record reads as credits + amount, the same total_gens and audit fields, and the new event id. |
| CreditLedger.IncrementGrants | lib/stripe.ts:92-109 | A grant succeeds, changes only that customer, adds the amount, keeps total_gens and the audit fields, and records the event id. |
| CreditLedger.GrantTwiceAddsTwice | lib/stripe.ts:97-107 | The event id is never checked first: granting the same event twice adds twice the amount. |
| CreditLedger.NaNBalanceIsAlwaysCharged | lib/stripe.ts:128 | A balance that does not parse is never refused (`NaN <= 0` is false), and it stays NaN after the charge. |
| CreditLedger.CreditsAfterMerge | lib/stripe.ts:103 | Posting `credits` as the text of a number leaves exactly that number as the balance. |
| CreditLedger.ApplyKeepsNonNegative | lib/stripe.ts:99 | One charge, or one grant of a non-negative amount, keeps a non-negative balance non-negative. |
| CreditLedger.BalanceStaysNonNegative | lib/stripe.ts:128-135 | Any sequence of charges and non-negative grants keeps a non-negative balance non-negative. |
| CustomerScripts.VisitCustomer | scripts/migrate-stripe-metadata.ts:69-127 | One customer: `total` counts it, then exactly one of skipped, written or errors, and a successful live update records the merged metadata. |
| CustomerScripts.VisitPage | scripts/migrate-stripe-metadata.ts:69-127 | The `for` loop over one page continues the run from the customers already seen. |
| CustomerScripts.RunScript | scripts/migrate-stripe-metadata.ts:62-138 | The pagination loop runs over every page in order up to the first listing failure. |
| CustomerScripts.Run | scripts/add-video-free-credits.ts:75-134 | `total` is the number of customers seen and equals written + skipped + errors; a dry run posts nothing and counts no error. |
| CustomerScripts.DryRunIgnoresUpdate | scripts/migrate-stripe-metadata.ts:110-122 | A dry run never calls the update: its counts and writes are the same whatever the update would do. |
| CustomerScripts.DryRunCountsWouldBeWrites | scripts/migrate-stripe-metadata.ts:110-122 | A dry run counts as written exactly the customers the script decides to update. |
| CustomerScripts.WritesAreDecided | scripts/migrate-stripe-metadata.ts:114-122 | Every written record is a listed customer's metadata merged with the update the script chose for it. |
| CustomerScripts.WritesSatisfy | scripts/add-video-free-credits.ts:114-130 | A property every decided update gives its customer holds of every written record. |
| CustomerScripts.OnlyDecidedIdsWritten | scripts/migrate-stripe-metadata.ts:74-89 | A customer skipped at every listing is never written. |
| CustomerScripts.FetchedOfOkPage | scripts/migrate-stripe-metadata.ts:64-69 | A listed page contributes its customers in order, followed by the later pages. |
| CustomerScripts.FetchedStopsAtFailure | scripts/migrate-stripe-metadata.ts:134-137 | Nothing after a listing failure is seen, as the `break` ends the loop. |
| MigrateMetadata.CarriedAudit | scripts/migrate-stripe-metadata.ts:101-105 | An audit field is carried exactly when it is set and non-empty, with its own value, so posting the carried fields changes nothing. |
| MigrateMetadata.Migrate | scripts/migrate-stripe-metadata.ts:36-160 | The script runs the shared loop with this decision, dry unless `--live` is given. |
| MigrateMetadata.Decide | scripts/migrate-stripe-metadata.ts:74-108 | A customer is migrated exactly when it has `credits` and no `free_credits`, with the `NewMetadata` update; each skip gives its reason. |
| MigrateMetadata.ShapeFields | scripts/migrate-stripe-metadata.ts:95-108 | The carried audit fields never override the balance fields, and they are posted with their own values. |
| MigrateMetadata.NewMetadata | scripts/migrate-stripe-metadata.ts:92-108 | The update posts free and video credits as "0", image credits that parse back to the old balance, total_gens (default "0"), `credits` as "", and each audit field exactly when it is non-empty, with its own value. |
| MigrateMetadata.MigratedBalances | scripts/migrate-stripe-metadata.ts:92-108 | The migrated record has free and video credits "0", no `credits`, image credits that parse back to the old balance, and total_gens kept. |
| MigrateMetadata.CarriedKeepsValue | scripts/migrate-stripe-metadata.ts:101-105 | A carried audit field, posted with its own value, leaves that field unchanged. |
| MigrateMetadata.MigratedKeepsTheRest | scripts/migrate-stripe-metadata.ts:95-108 | Every key other than the five balance fields keeps its value. |
| MigrateMetadata.MigrationIdempotent | scripts/migrate-stripe-metadata.ts:84-89 | A migrated record has `free_credits`, so a second pass skips it as already migrated. |
| MigrateMetadata.MigratedRecordsSkip | scripts/migrate-stripe-metadata.ts:84-108 | Every update the script decides on gives a record a second run skips. |
| MigrateMetadata.SecondRunSkipsWrites | scripts/migrate-stripe-metadata.ts:62-138 | After a run, every record it wrote is skipped as already migrated by a second run. |
| MigrateMetadata.LiveGuardUnreachable | scripts/migrate-stripe-metadata.ts:160-165 | The guard after `isDryRun` can never fire; the run is dry exactly when `--live` is absent, and `--dry-run` changes nothing. |
| AddVideoCredits.AddVideoFreeCredits | scripts/add-video-free-credits.ts:42-168 | The script runs the shared loop with this decision, dry unless `--live` is given. |
| AddVideoCredits.NewMetadata | scripts/add-video-free-credits.ts:107-112 | The update sets two video free credits, keeps each video counter when non-empty and "0" otherwise, and posts every other key with its current value. |
| AddVideoCredits.Decide | scripts/add-video-free-credits.ts:80-112 | A customer is granted exactly when it holds no video free credits and has some credit history, with the `NewMetadata` update; each skip gives its reason; a "0" balance is granted again. |
| AddVideoCredits.GrantShape | scripts/add-video-free-credits.ts:107-112 | The update sets the three video fields and posts every other key with its current value. |
| AddVideoCredits.GrantedRecord | scripts/add-video-free-credits.ts:107-112 | The granted record has two video free credits, both video counters kept when non-empty and "0" otherwise, and every other non-empty field unchanged. |
| AddVideoCredits.ImmediateRerunSkips | scripts/add-video-free-credits.ts:87-93 | Running again right away skips a customer just granted, as already granted. |
| AddVideoCredits.GrantedRecordsSkip | scripts/add-video-free-credits.ts:87-112 | Every update the script decides on gives a record a second run skips. |
| AddVideoCredits.SecondRunSkipsWrites | scripts/add-video-free-credits.ts:68-146 | After a run, every record it wrote is skipped by an immediate second run. |
| AddVideoCredits.DryUnlessLive | scripts/add-video-free-credits.ts:167-168 | The run is dry exactly when `--live` is absent; `--dry-run` changes nothing. |
| RateLimit.RateLimiter.constructor | lib/rate-limit.ts:6 | The limiter starts with no records. |
| RateLimit.RateLimiter.CheckRateLimit | lib/rate-limit.ts:8-23 | The answer and the new map are those of the one-step `CheckStep` on the old map. |
| RateLimit.RateLimiter.ResetRateLimit | lib/rate-limit.ts:25-27 | Only the caller's record is removed. |
| RateLimit.FirstCallOfDayAllowed | lib/rate-limit.ts:12-15 | A key with no record, or a record of another day, is allowed and stores count 1 for today. |
| RateLimit.SecondCallSameDayRefused | lib/rate-limit.ts:17-19 | A second call with the same key on the same day is refused and changes nothing. |
| RateLimit.CheckStep | lib/rate-limit.ts:8-23 | A call is allowed exactly when the key has no record, a record of another day, or a zero count; a refusal changes nothing; otherwise only the key's record changes, to today with a positive count. |
| RateLimit.ResetThenAllowed | lib/rate-limit.ts:25-27 | After a reset the key's next call is allowed, whatever the day. |
| RateLimit.CheckKeepsCountsOne | lib/rate-limit.ts:13-22 | Every call keeps all stored counts at 1, so a same-day record always refuses and `count++` is never reached. |
| RateLimit.RecordPersists | lib/rate-limit.ts:12-19 | After an allowed call, the key's record keeps that day until the key is used on another day. |
| RateLimit.AtMostOnePerKeyPerDay | lib/rate-limit.ts:8-23 | Without a reset, and with days that never go back, at most one call per key per day is allowed. |
| Presets.PromptTextOpensWithStyle | lib/presets.ts:24 | Every prompt text starts with its style sentence and a full stop. |
| Presets.PromptTexts | lib/presets.ts:10-24 | One text per prompt, in order, each opening with its style sentence and a full stop. |
| PresetTable.GetPreset | lib/presets.ts:159-161 | `getPreset` finds a preset exactly for an id listed in `PRESET_ORDER`, and then it is the table entry with that id and four prompts. |
| PresetTable.GetAllPresets | lib/presets.ts:163-165 | `getAllPresets` gives one preset per `PRESET_ORDER` entry, in order, never undefined, each with its own id. |
| PresetTable.PresetKeys | lib/presets.ts:17-155 | The table has exactly the eleven preset ids. |
| PresetTable.OrderCoversPresets | lib/presets.ts:157 | `PRESET_ORDER` lists every key of the table and nothing else. |
| PresetTable.OrderHasNoDuplicates | lib/presets.ts:157 | `PRESET_ORDER` has eleven distinct entries. |
| PresetTable.IdsMatchKeys | lib/presets.ts:17-155 | Every entry's `id` is its own key. |
| PresetTable.FourPromptsEach | lib/presets.ts:17-155 | Every preset has exactly four prompts. |
| PresetTable.MapleToNorthernStyled | lib/presets.ts:18-53 | The first three presets' prompts are the generic style and their own scenes, in order. |
| PresetTable.CottageToIlacStyled | lib/presets.ts:54-94 | The same for the next three presets. |
| PresetTable.WildernessToWildlifeStyled | lib/presets.ts:95-130 | The same for the next three presets. |
| PresetTable.EhAndWithusStyled | lib/presets.ts:131-154 | The same for the last two presets. |
| PresetTable.PromptsAreStyled | lib/presets.ts:15-155 | Every prompt of every preset is the generic style followed by one of its own scenes. |
| PresetTable.AllPresetsInOrder | lib/presets.ts:157-165 | `getAllPresets` never yields undefined and gives the eleven presets in display order. |
| PresetTable.RequiresRefsExactly | lib/presets.ts:78-154 | Reference photos are required exactly by the ILAC campus preset and the "With Us" preset. |
| PresetTable.PromptTextsStartWithStyle | lib/presets.ts:15-155 | Every prompt text of every preset starts with the generic style sentence and a full stop. |
| PresetTable.GetPresetIsLookup | lib/presets.ts:159-161 | `getPreset` is the shared lookup on the constant table. |
| ShippedPresets.PreviewRefusesReferencePresets | app/api/preview/route.ts:41-52 | With the shipped table, previews answer 403 exactly for the ILAC campus and "With Us" presets. |
| ShippedPresets.ReferencesOnlyForReferencePresets | app/api/generate/route.ts:83-100 | With the shipped table, the paid route sends reference photos exactly for those two presets. |
| Pricing.Find | lib/pricing.ts:71-73 | `find` returns the first matching option, and None exactly when no option matches. |
| Pricing.OptionIdsDistinct | lib/pricing.ts:15-66 | The six pack ids are pairwise distinct. |
| Pricing.GetPricingOptionFindsOwnPack | lib/pricing.ts:71-73 | Looking up a pack's id finds that pack; an id of no pack finds nothing. |
| Pricing.GetPricingOption | lib/pricing.ts:71-73 | A lookup returns a listed pack with that id; None exactly when no pack has it. |
| Pricing.GetPricingByPriceId | lib/pricing.ts:78-80 | A price-id lookup returns a listed pack whose price id is set and equal; None exactly when no pack's id is equal. |
| Pricing.UnsetEnvMatchesNothing | lib/pricing.ts:78-80 | With no price variable set, no price id matches any pack. |
| Pricing.PackCredits | lib/pricing.ts:15-66 | Three image packs of 5, 10 and 25 credits, then three video packs of 4, 7 and 14. |
| Watermark.SideOr | lib/watermark.ts:25-26 | `n \|\| d` is `n` or `d`, keeps a positive `n`, and is never 0 when the default is positive. |
| Watermark.ScaledSize | lib/watermark.ts:29-40 | Without downscaling the size is kept; with it both sides are at most 768; either the size is kept or one side is exactly 768. |
| Watermark.RoundedScale | lib/watermark.ts:35 | `Math.round(side / long * 768)` is the nearest integer, with halves rounded up. |
| Watermark.WatermarkAndDownscale | lib/watermark.ts:14-86 | The step-by-step routine returns what `Watermarked` says: the PNG URI, or the input on any error. |
| Watermark.NoDownscaleKeepsSize | lib/watermark.ts:29-32 | Without downscaling the size is kept. |
| Watermark.SmallImageKept | lib/watermark.ts:32 | An image with both sides at most 768 is kept even when downscaling is on. |
| Watermark.RoundedScaleAtMost | lib/watermark.ts:35-38 | The scaled shorter side is at most 768, and exactly 768 for a square. |
| Watermark.DownscaleFitsLongSide | lib/watermark.ts:32-40 | When downscaling applies, both sides end at most 768, and the longer side (the height for a square) is exactly 768. |
| Watermark.DownscaleKeepsAspect | lib/watermark.ts:35-38 | The shorter side becomes the rounding of short * 768 / long, within half a pixel. |
| Watermark.LogoSize | lib/watermark.ts:47-48 | The logo is 8% of the width, rounded down and capped at 120; the padding is 20% of the logo, rounded down. |
| Watermark.LogoAtBottomRight | lib/watermark.ts:70-71 | The logo plus padding ends exactly at the right and bottom edges. |
| Watermark.PlanLogo | lib/watermark.ts:43-71 | The logo is placed on the image at its size, inside the left edge, and it and its padding end exactly at the right edge and, by the logo's own height, at the bottom edge. |
| Watermark.Plan | lib/watermark.ts:14-71 | An input with no comma fails; a plan places the logo and its padding ending exactly at the right and bottom edges, and with downscaling both sides are at most 768. |
| Watermark.Watermarked | lib/watermark.ts:14-86 | The result is the input or a PNG data URI, and an input with no comma comes back unchanged. |
| Watermark.FailureReturnsInput | lib/watermark.ts:81-85 | Any step that throws makes the result the input, unchanged. |
| Watermark.NoPayloadReturnsInput | lib/watermark.ts:20-21 | An input with no comma has no payload and comes back unchanged. |
| Watermark.SuccessIsScaledPng | lib/watermark.ts:24-80 | A successful call renders at the computed size, places the logo at the right edge, and returns a PNG data URI. |
| Watermark.PreviewReceipt | lib/watermark.ts:98-102 | The receipt is tagged type "preview" and version "1.0". |
| Watermark.ReceiptKeepsData | lib/watermark.ts:91-104 | The receipt carries every input field unchanged, so different inputs give different receipts. |
| Watermark.ReceiptReadsBack | lib/watermark.ts:91-104 | With a JSON encoding that reads back, the receipt decodes to the input data, type "preview" and version "1.0". |
| Http.ShortHash | app/api/generate/route.ts:61-65 | The audit hash is a prefix of the hex digest, and 16 characters long when the digest is. |
| NbGemini.RequestImages | lib/nb-gemini.ts:65-83 | The user image comes first; a reference list present is sent after it in order, and without one the user image is sent alone. |
| NbGemini.EncodingIsUnique | lib/nb-gemini.ts:60-83 | Only one part list encodes a prompt and its images. |
| NbGemini.BuildParts | lib/nb-gemini.ts:60-83 | The `parts.push` sequence builds exactly that list: text, base image, references. |
| NbGemini.EmptyReferencesSendNothing | lib/nb-gemini.ts:74 | An absent and an empty reference list both give the two-part request. |
| NbGemini.FirstInlineData | lib/nb-gemini.ts:113-115 | `find` returns the first part with inline data, and None exactly when no part has any. |
| NbGemini.ImageFromResponse | lib/nb-gemini.ts:112-133 | An image is returned exactly when the first candidate has parts and the first inline part has non-empty data; no parts is exactly "Invalid response structure", any other failure is the no-image error, and an image is a data URI. |
| NbGemini.PromptOutcome | lib/nb-gemini.ts:58-134 | A service error for a prompt is passed through unchanged, and a success is a data URI. |
| NbGemini.ImageUriReadsBack | lib/nb-gemini.ts:117-120 | The returned URI reads back as the response's data and MIME type, with "image/png" as the default. |
| NbGemini.FallbackIsPlain | lib/nb-gemini.ts:118 | The fallback MIME type is a non-empty type with no ';' or ','. |
| NbGemini.ImageUriIsBuilt | lib/nb-gemini.ts:117-121 | The returned URI is `data:<mime or image/png>;base64,<data>`. |
| NbGemini.NoUsageCountsZero | lib/nb-gemini.ts:91-95 | A response without usage metadata counts no tokens. |
| NbGemini.All | lib/nb-gemini.ts:141 | `Promise.all` succeeds exactly when every outcome does, keeping their order; a failure is one of the outcomes' errors. |
| NbGemini.DataUrisInOrder | lib/nb-gemini.ts:144-145 | The collected images are the results' URIs, in order. |
| NbGemini.Accumulate | lib/nb-gemini.ts:144-148 | The `forEach` collects the URIs in order and sums the input and output tokens. |
| NbGemini.GenerateImages | lib/nb-gemini.ts:28-171 | The routine returns what the `ImagesOutcome` function says for the same options and services. |
| NbGemini.OneImagePerPrompt | lib/nb-gemini.ts:58-148 | A successful call returns one image per prompt, in prompt order, each the image of that prompt's response. |
| NbGemini.AnyFailureFailsAll | lib/nb-gemini.ts:141 | With a key, the call fails exactly when some prompt fails, and with that prompt's error. |
| NbGemini.MissingKeyFailsFirst | lib/nb-gemini.ts:31-35 | Without a key the call fails with the configuration error whatever the service would answer. |
| NbGemini.QualityIsIgnored | lib/nb-gemini.ts:58-86 | The requested quality changes nothing about the requests or the result. |
| NbGemini.TotalsOfAppend | lib/nb-gemini.ts:146-147 | The token totals grow by each result's own counts. |
| NbGemini.GenerateVideo | lib/nb-gemini.ts:203-437 | This file's video call runs the key check, start, poll and download, with the user image as the request's `image`; a temporary-directory failure is rethrown without the download prefix (line 305). |
| NbGemini.VideoVariantsDifferOnlyInRequest | lib/nb-gemini.ts:238-251 | The two video functions differ only in how the user image is attached to the request. |
| VideoGeneration.ClockPassesLimit | lib/video-generation.ts:87-101 | With the ten-second sleep, a check after 5 minutes' worth of turns sees more than 5 minutes elapsed. |
| VideoGeneration.PollUntilDone | lib/video-generation.ts:91-107 | The `while (!operation.done)` loop gives the outcome that the `PollFrom` function defines. |
| VideoGeneration.PollFrom | lib/video-generation.ts:91-107 | A successful poll ends on a finished operation. |
| VideoGeneration.PollTimesOut | lib/video-generation.ts:93-95 | An operation that never finishes ends in the timeout error. |
| VideoGeneration.TimeoutOnlyAfterLimit | lib/video-generation.ts:93-95 | The timeout is raised only at a check that saw more than 5 minutes elapsed. |
| VideoGeneration.DownloadVideo | lib/video-generation.ts:116-265 | The download tail returns what `Finish` says: the video URI, the `mkdtemp` error rethrown as is (lines 134 and 263-265), or the download error it throws. |
| VideoGeneration.TrimFailureFallsBack | lib/video-generation.ts:173-217 | A failed trim gives the same result as no trim, the untrimmed video. |
| VideoGeneration.MissingVideoFails | lib/video-generation.ts:116-120 | A finished operation without a first video fails with "No video generated in response". |
| VideoGeneration.Finish | lib/video-generation.ts:116-265 | A success needs a first video and a temporary directory, and is an MP4 data URI of an 8-second video from the Veo model. |
| VideoGeneration.DownloadErrorsWrapped | lib/video-generation.ts:253-265 | Once the temporary directory exists, every download failure carries the "Failed to download video: " prefix; a `mkdtemp` failure is rethrown without it. |
| VideoGeneration.RunVideo | lib/video-generation.ts:30-107 | The key check, the start call, the poll and the download run in that order. |
| VideoGeneration.GenerateVideo | lib/video-generation.ts:27-267 | `generateVideo` is the run with the user image as the one ASSET reference image, including the unwrapped `mkdtemp` failure of the download. |
| VideoGeneration.MissingKeyFailsFirst | lib/video-generation.ts:30-34 | Without a key the call fails with the configuration error, whatever the services do. |
| VideoGeneration.UserImageIsSoleAsset | lib/video-generation.ts:62-80 | The request carries the prompt and exactly one reference image: the user's, as ASSET, with no separate `image`. |
| VideoGeneration.UnprefixedImageIsJpeg | lib/video-generation.ts:45-52 | A user image without a `data:<type>;` prefix is sent as "image/jpeg". |
| WebhookRoute.Weight | app/api/webhooks/stripe/route.ts:88-99 | One unit of a price is worth 1, 5, 10 or 0 credits, and 0 exactly when it matches none of the three prices. |
| WebhookRoute.SumCredits | app/api/webhooks/stripe/route.ts:79-100 | The loop total is the sum of weight times quantity over the line items. |
| WebhookRoute.Webhook | app/api/webhooks/stripe/route.ts:12-125 | The reply is 200, 400 or 500; no customer is added or removed, and any reply but 200 changes nothing. |
| WebhookRoute.Post | app/api/webhooks/stripe/route.ts:12-125 | The handler's reply and store are those of the `Webhook` function, and the creation order is kept. |
| WebhookRoute.TotalPositiveIff | app/api/webhooks/stripe/route.ts:79-104 | The total is positive exactly when some item has a matched price and a positive quantity. |
| WebhookRoute.TotalOfAppend | app/api/webhooks/stripe/route.ts:81-100 | Each line item adds its own weight times quantity. |
| WebhookRoute.MissingQuantityCountsZero | app/api/webhooks/stripe/route.ts:83 | An item without a quantity adds nothing. |
| WebhookRoute.UnpricedItemCountsAsGen1WhenUnset | app/api/webhooks/stripe/route.ts:82-89 | An item without a price counts as a GEN_1 purchase when that variable is unset. |
| WebhookRoute.GuardsComeFirst | app/api/webhooks/stripe/route.ts:16-45 | A missing signature (400), a missing secret (500) and a failed verification (400) each answer before any ledger call. |
| WebhookRoute.OtherEventsIgnored | app/api/webhooks/stripe/route.ts:123-124 | A verified event of another type is acknowledged and changes nothing. |
| WebhookRoute.MissingCustomerRefused | app/api/webhooks/stripe/route.ts:56-69 | A completed checkout without a customer id answers 400 and changes nothing. |
| WebhookRoute.GrantsTheTotal | app/api/webhooks/stripe/route.ts:79-113 | The total is granted to the customer, stamped with the event id, exactly when positive, and a 200 reports it. |
| WebhookRoute.RedeliveryGrantsTwice | app/api/webhooks/stripe/route.ts:104-105 | A redelivered event grants its credits a second time. |
| GenerateRoute.ReferenceImages | app/api/generate/route.ts:83-100 | Reference photos are present exactly when the preset needs them and both reads succeed; they are two URIs that read back as "image/jpeg" and as each photo's Base64 text. |
| GenerateRoute.Generate | app/api/generate/route.ts:15-122 | The reply is 200, 400, 401, 402 or 500; 401 exactly when `auth()` returns no user (a throw from it is a 500); the store only grows; a 200 carries the generated images. |
| GenerateRoute.ChargeAndGenerate | app/api/generate/route.ts:68-120 | After the customer is known the reply is 200, 402 or 500, no customer is added, a 402 changes nothing, and a 200 carries the generated images. |
| GenerateRoute.Post | app/api/generate/route.ts:15-122 | The handler's reply and store are those of the `Generate` function. |
| GenerateRoute.UnauthorizedFirst | app/api/generate/route.ts:16-21 | A throw from `auth()` answers the generic 500 and a missing user 401, and in both cases the store is untouched. |
| GenerateRoute.ChargeNeverAnswers400 | app/api/generate/route.ts:68-114 | The charge and the generation never answer 400. |
| GenerateRoute.ValidationBeforeCharge | app/api/generate/route.ts:27-54 | Every 400 is answered before any customer is created or charged. |
| GenerateRoute.ServerErrorsAreGeneric | app/api/generate/route.ts:115-120 | Every 500 carries only "Generation failed", a throw from `auth()` included. |
| GenerateRoute.ChargeComesNext | app/api/generate/route.ts:51-68 | Once the customer is known, the rest of the request is the charge and then the generation. |
| GenerateRoute.InsufficientCreditsNeverGenerates | app/api/generate/route.ts:75-80 | A refused charge answers 402 whatever the image service would do, and changes no balance. |
| GenerateRoute.ChargeStampsAudit | app/api/generate/route.ts:57-73 | The charge takes one credit and stamps the preset, the photo's byte length and its 16-digit audit hash. |
| GenerateRoute.FailedGenerationKeepsCharge | app/api/generate/route.ts:103-120 | A generation failure after the charge answers 500 and keeps the charge. |
| GenerateRoute.SuccessAfterCharge | app/api/generate/route.ts:103-114 | A success answers 200 with one image per prompt of the preset, after the charge. |
| GenerateRoute.ReferencesOnlyWhenRequired | app/api/generate/route.ts:83-108 | References are sent only when the preset needs them, two of them, with the preset's prompts at high quality. |
| PreviewRoute.Watermarks | app/api/preview/route.ts:73-75 | One output per input, in order, each the watermarked image: a PNG data URI, or the input itself when watermarking failed. |
| PreviewRoute.WatermarkAll | app/api/preview/route.ts:73-75 | The loop gives exactly those watermarked images. |
| PreviewRoute.Preview | app/api/preview/route.ts:13-98 | The reply is 200, 400, 403, 429 or 500; a 429 changes nothing; the caller key then holds a record of today, and no other key changes. |
| PreviewRoute.Admitted | app/api/preview/route.ts:29-97 | After the rate limit the reply is 200, 400, 403 or 500, and a 200 is a preview with the sign-up message. |
| PreviewRoute.Post | app/api/preview/route.ts:13-98 | The handler's reply and rate-limit map are those of the `Preview` function. |
| PreviewRoute.CallerKey | app/api/preview/route.ts:16-19 | The caller key is never empty: it is a comma-free prefix of `x-forwarded-for`, or `x-real-ip`, or "unknown". |
| PreviewRoute.FirstHopIsKey | app/api/preview/route.ts:17 | A forwarded chain with a non-empty first hop is keyed by that hop alone. |
| PreviewRoute.NoHopFallsBack | app/api/preview/route.ts:16-19 | Without a usable first hop the key is `x-real-ip` when non-empty, else "unknown". |
| PreviewRoute.RateLimitFirst | app/api/preview/route.ts:22-27 | A refused call answers 429 whatever it carries: no form is read and no image generated. |
| PreviewRoute.OnePreviewPerKeyPerDay | app/api/preview/route.ts:22-52 | Any admitted call spends the day's slot: a second same-day call with the same key answers 429, even after a 400, 403 or 500. |
| PreviewRoute.PaidPresetsRefused | app/api/preview/route.ts:47-52 | Presets that need reference photos answer 403 before any generation. |
| PreviewRoute.PreviewIsLowQualityWithoutReferences | app/api/preview/route.ts:66-70 | A preview sends the photo, no references and the preset's prompts, at low quality. |
| PreviewRoute.SuccessIsWatermarkedAndReceipted | app/api/preview/route.ts:66-90 | A success answers 200 with one watermarked image per prompt, in order, and a receipt of the hashed key, preset, time and photo hash. |
| PreviewRoute.ServerErrorsAreGeneric | app/api/preview/route.ts:91-97 | Every 500 carries only "Preview generation failed". |
| PreviewRoute.ReceiptNamesThePreview | app/api/preview/route.ts:78-83 | The receipt reads back as the 16-character key hash, the preset id, the time and the photo hash. |
| CheckoutRoute.Post | app/api/checkout/route.ts:9-84 | The handler's reply and store are those of the `Checkout` function. |
| CheckoutRoute.Checkout | app/api/checkout/route.ts:9-84 | The reply is 200, 400, 401 or 500; 401 exactly when `auth()` returns no user (a throw from it is a 500); the store gains at most the fresh customer, and existing records are unchanged. |
| CheckoutRoute.OpenSession | app/api/checkout/route.ts:55-83 | Once the price and email are accepted the reply is 200 or 500; the store gains at most the fresh customer, and existing records are unchanged. |
| CheckoutRoute.UnauthorizedFirst | app/api/checkout/route.ts:10-15 | A throw from `auth()` answers the generic 500 and a missing user 401, whatever the body says, and the store is untouched. |
| CheckoutRoute.ServerErrorsAreGeneric | app/api/checkout/route.ts:77-83 | Every 500 carries only "Failed to create checkout session", a throw from `auth()` included. |
| CheckoutRoute.PriceCheckedFirst | app/api/checkout/route.ts:20-39 | A missing or unlisted price answers 400 without consulting Clerk or Stripe. |
| CheckoutRoute.SessionNeverAnswers400 | app/api/checkout/route.ts:56-76 | Opening the session never answers 400. |
| CheckoutRoute.RejectionsCreateNoCustomer | app/api/checkout/route.ts:11-56 | Every 400 leaves the store as it was: no customer is created for a rejected request. |
| CheckoutRoute.SessionBuysOneUnit | app/api/checkout/route.ts:59-74 | The session is for the user's own live customer, one unit of the price, payment mode with promotion codes, the user id, and the app's return URLs. |
| CheckoutRoute.FailedSessionKeepsCustomer | app/api/checkout/route.ts:77-83 | A failed session answers 500, and a customer created for it stays created. |
| CheckoutRoute.AllowedIffWorthCredits | app/api/checkout/route.ts:28-39 | A price passes the allowlist exactly when one unit earns credits in the webhook. |

## Left out

- Concurrency: `withLock` (lib/stripe.ts:26-47) serialises calls per customer in one process. Each ledger operation is modelled as one atomic step, and neither the lock's ordering nor races between processes are modelled.
- Clerk's `auth()` and user lookup, Stripe's checkout sessions, the Gemini and Veo SDKs, `fetch`, sharp, ffmpeg, the file system and `fs.mkdtemp` are parameters. Each returns an arbitrary value or an error (a throw); nothing more about their behaviour is assumed.
- Stripe's customer API is not a parameter. `CustomerStore` and the step functions on the customer map assume four things about it:
  - `customers.list`, `create`, `retrieve` and `update` never fail;
  - `list({ email, limit: 1 })` returns the newest customer with that email that is not deleted;
  - `update` merges the posted keys into the metadata, and a key posted as "" is removed (`CreditLedger.Merge`);
  - a retrieved customer is either live or deleted, and a missing id is an error.
- Stripe errors inside the ledger are therefore left out. Such an error is thrown out of `getOrCreateStripeCustomer`, `decrementCredit` or `incrementCredits`, and the routes answer it with a 500 (app/api/generate/route.ts:115-120, app/api/checkout/route.ts:77-83, app/api/webhooks/stripe/route.ts:114-121). The model keeps the webhook's 500 only for a missing or deleted customer, and has no Stripe failure path at all. The branch of `GenerateRoute.Post` that would take it, a charge that cannot read the customer just found or created, is unreachable there.
- Signature verification (`constructEvent`) is a parameter. The model says nothing about which bodies verify.
- SHA-256, Base64 and `JSON.stringify` are opaque parameters. No round trip through them is claimed.
- The clock is a parameter:
  - the rate limiter takes the UTC day as a day number, in one-to-one correspondence with ISO date strings;
  - the poll loop takes the clock readings at its checks, and the ten-second sleep is the assumption that each check is at least ten seconds after the previous one;
  - the 3-second pause before a live migration run is not modelled.
- MigrateMetadata.Migrate: the `STRIPE_SECRET_KEY` guard that exits before any listing (scripts/migrate-stripe-metadata.ts:19-22) is not modelled; the run starts with the Stripe client in place.
- AddVideoCredits.AddVideoFreeCredits: the same missing-key exit (scripts/add-video-free-credits.ts:23-27) is not modelled.
- Console logs and development-only logging are left out. One development-only log changes behaviour: for a user image without a comma, `userImageBase64.length` reads a property of `undefined` and throws (lib/video-generation.ts:56, lib/nb-gemini.ts:232). The model follows a production run, where no such log is written.
- JsValues.ParseIntOfIntToString: JavaScript numbers are doubles, and the model's counters are exact unbounded integers. The ledger's `+ amount` and `- 1` are exact only below 2^53, and from 1e21 up `String(n)` uses exponent form ("1e+21"), which `parseInt` reads as 1. The round trip is proved for every integer, but the source keeps it only for |i| < 2^53.
- JsValues.ParseIntOfNumToString: the same bound applies; counters of 2^53 or more are not modelled as the source computes them.
- JsValues.ParseInt: leading white space and the "0x" prefix are not modelled. The ledger never writes either.
- Floating point is left out. `Math.round(h / w * 768)`, `* 0.08` and `* 0.2` are modelled in exact integer arithmetic. A double-precision product that lands just beside a tie or an integer could round differently.
- Watermark.SuccessIsScaledPng: the resize with `fit: "inside"` and `withoutEnlargement` is requested at the computed size. The image library's own final size is not modelled.
- JavaScript prototype keys: `PRESETS` is a finite map, so `getPreset("constructor")` is undefined in the model.
- The preset table is a parameter of the two generation routes; `ShippedPresets` instantiates the routes' properties with the constant table.
- The scene sentences of the prompts are named by preset and position rather than copied. The prompt texts are given by a `scenes` parameter.
- Promise.all's choice of error: when several prompts fail, the model proves the error is one of theirs, not that it is the first to reject in time.
- `options.quality` and `fileToBase64` of lib/nb-gemini.ts are not used by the core; quality is proved to change nothing.
- Pagination in the scripts: the pages are the successive listing results. How `starting_after` picks the next page, and an empty page that still reports `has_more`, are not modelled.
- Form parsing: `formData.get` values that are not a File or not a string are not modelled; a field is either present or absent.
- The checkout body: a `priceId` that is not a string is not modelled.
- The CAPTCHA check the preview route leaves as a TODO does not exist in the code, so it is not modelled.
- The UI under app/page.tsx, app/layout.tsx, components/ and hooks/ is left out.
- The debug and test scripts are left out.
- lib/photo-styles.ts is a static table with no behaviour, and is left out.
- app/api/credits/route.ts and app/api/reset-credits/route.ts are thin wrappers outside the core, and are left out.
