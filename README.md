# Upscale-all: a Dafny model of the credit and job engine

Upscale-all is a Next.js service that upscales images for paying users. Each upscale costs
4 credits. Users buy credits, or get them from subscriptions, through Lemon Squeezy. Images
live in a DigitalOcean Spaces bucket. This project models the logic behind the route handlers
and proves properties of it:

- **The credit ledger** (`credits.dfy`). Each user has a balance, and every change to a
  balance appends an entry to the transaction log. The invariant is that each balance equals
  the user's opening balance plus the sum of that user's log entries. `Debit` and `Credit` are
  the pure transitions of `deductCredits` and `addCredits`. The `Ledger` class stores the
  state and is proved against those transitions.
- **The upscale route** (`upscale.dfy`):
  - the guard sequence of a submission;
  - the job record and the debit of an accepted submission;
  - `processJob`, which ends a job either `done` with a stored output or `failed` with a refund.
- **The billing webhook** (`webhook.dfy`):
  - the signature compare (`hex.dfy` models Node's hex encoding and its lenient decoding);
  - the JSON and user-id gates;
  - the dispatch on the event name over the ledger and the subscription table.
- **The static tables:**
  - the category router (`router.dfy`);
  - the Claid endpoints (`claid.dfy`);
  - the fal models (`fal.dfy`);
  - the credit packages and subscription plans (`plans.dfy`).
- **The validators and builders:**
  - storage keys and public URLs (`storage.dfy`);
  - the upload guards (`upload.dfy`);
  - the checkout variant selection (`checkout.dfy`);
  - the extension derived from a MIME type (`extension.dfy`), which uses the JavaScript
    string operations in `strings.dfy`.

Calls to code outside the core are parameters of the operations that make them:

- `fal.subscribe`, `fetch`, the Claid POST, `createCheckout` and `JSON.parse` are functions;
- HMAC-SHA256 is the function `hmac(secret, payload)`;
- a failure of the S3 `send` is an optional error;
- `nanoid()` is the `fileId` argument, and `new Date()` is the `now` and `nowIso` arguments;
- environment settings are configuration records (`VariantConfig`, `SpacesConfig`, `CheckoutConfig`).

Database tables are in-memory maps and sequences, and a Prisma call that throws is the error
case of a `Result`.

`addCredits` runs a Prisma `update` (lib/credits.ts:65-69), which throws when the user has
no row; so `Credit` returns `Err(UserNotFound)` and changes nothing. In the webhook that
throw becomes the 500 "Internal error"; in `processJob` it means no refund is written.

## Model

| member | source | states |
|---|---|---|
| Common.ErrorMessage | app/api/upscale/route.ts:105 | The stored message is the Error's `message`, and "Unknown error" for a thrown non-Error. |
| Router.ParseCategory | app/api/upscale/route.ts:28-30 | Accepts a string exactly when it is one of the five category names, and returns the category with that name. |
| Router.AllCategoriesValid | app/api/upscale/route.ts:10-12 | Every category is in `VALID_CATEGORIES`. |
| Router.ParseCategoryName | app/api/upscale/route.ts:10-12 | The five names are distinct: parsing a category's name gives that category back. |
| Router.RoutingTableTotal | lib/router.ts:15-21 | The routing table has exactly the five categories as keys. |
| Router.GetProviderForCategory | lib/router.ts:23-25 | The result is the table entry of the category, and its primary differs from its fallback. |
| Router.PinnedRoutes | lib/router.ts:16-20 | portrait and product route to claid with fal fallback; clarity, anime and restoration route to fal with runware fallback. |
| Credits.HasEnoughCredits | lib/credits.ts:5-7 | True exactly when the balance is at least 4. |
| Credits.HasEnoughCreditsPinned | lib/credits.ts:5-7 | 10 and 4 are enough; 3 and 0 are not. |
| Credits.CreditsOf | lib/credits.ts:9-15 | The stored balance, or 0 for an unknown user. |
| Credits.Debit | lib/credits.ts:21-53 | Fails with InsufficientCredits exactly when the user is missing or the balance is below the amount. On success: only that user's balance drops by the amount; one `usage` entry of `-amount` tagged with the job id is appended; earlier entries are kept; a non-negative amount never leaves a negative balance. |
| Credits.Credit | lib/credits.ts:58-83 | Fails with UserNotFound exactly when the user has no row. Otherwise only that user's balance rises by the amount, and one entry with the given type, order id and job id is appended after the kept log. |
| Credits.AppendPreservesConsistency | lib/credits.ts:36-49 | Moving one user's balance by an entry's amount while appending that entry keeps every balance equal to opening balance plus logged sum. |
| Credits.DebitPreservesConsistency | lib/credits.ts:26-52 | `deductCredits` keeps balance equal to opening balance plus logged sum, for every user. |
| Credits.CreditPreservesConsistency | lib/credits.ts:64-82 | `addCredits` keeps balance equal to opening balance plus logged sum, for every user. |
| Credits.DebitThenRefundNetZero | app/api/upscale/route.ts:109-110 | A debit of 4 followed by the refund of the same job succeeds. It restores every balance and appends exactly the usage entry and the refund entry. |
| Credits.Ledger.GetUserCredits | lib/credits.ts:9-15 | The stored balance, which equals the opening balance plus the logged sum; 0 for an unknown user. |
| Credits.Ledger.DeductCredits | lib/credits.ts:21-53 | The new state is `Debit` of the old one, and the result is the new balance. On failure nothing changes. The ledger invariant is kept. |
| Credits.Ledger.AddCredits | lib/credits.ts:58-83 | The new state is `Credit` of the old one, and the result is the new balance. On failure nothing changes. The ledger invariant is kept. |
| Plans.LookupKey | app/api/billing/checkout/route.ts:17 | Looking a key up in a table returns the offer with that key, or None when no offer has it. |
| Plans.FindVariant | app/api/webhooks/lemon-squeezy/route.ts:56-58 | Returns the first offer, in table order, with that variant id (no earlier offer matches), or None exactly when no offer has it. |
| Plans.FindVariantIndex | app/api/webhooks/lemon-squeezy/route.ts:71-73 | Returns the first position, in table order, whose variant id matches. |
| Plans.CreditPackages | lib/lemonsqueezy.ts:5-24 | The packages in declaration order: starter, popular and pro, with the variant ids of `LS_VARIANT_STARTER`, `LS_VARIANT_POPULAR` and `LS_VARIANT_PRO` and 40, 120 and 400 credits. |
| Plans.SubscriptionPlans | lib/lemonsqueezy.ts:26-39 | The plans in declaration order: basic and pro, with the variant ids of `LS_VARIANT_BASIC_SUB` and `LS_VARIANT_PRO_SUB` and 200 and 600 monthly credits. |
| Plans.CreditPackagesTable | lib/lemonsqueezy.ts:5-24 | There are three packages, keyed starter, popular and pro, worth 40, 120 and 400 credits. |
| Plans.SubscriptionPlansTable | lib/lemonsqueezy.ts:26-39 | There are two plans, keyed basic and pro, granting 200 and 600 credits a month. |
| Plans.ProInBothTables | lib/lemonsqueezy.ts:18-34 | "pro" is a key of both tables, with variant ids from `LS_VARIANT_PRO` and `LS_VARIANT_PRO_SUB`. |
| Storage.GetStorageKey | lib/storage.ts:19-25 | The key is the kind name, "/", the user id, "/", then the file name, each at its position. |
| Storage.StorageKeyRoundTrip | lib/storage.ts:19-25 | A key reads back as its kind, user id and file name when the user id has no "/". |
| Storage.StorageKeyInjective | lib/storage.ts:19-25 | For user ids without "/", different (kind, user, file) triples give different keys. |
| Storage.InputOutputKeysDiffer | lib/storage.ts:24 | An input key never equals an output key. |
| Storage.StorageKeysPinned | lib/storage.ts:19-25 | Checks `input/user123/abc.jpg` and `output/user123/abc.jpg`. |
| Storage.GetPublicUrl | lib/storage.ts:27-37 | The URL ends with "/" + key. Before that comes the CDN endpoint when one is set and non-empty; otherwise it is endpoint + "/" + bucket. |
| Storage.EmptyCdnIsUnset | lib/storage.ts:32 | An empty CDN setting gives the same URL as an unset one. |
| Storage.Spaces.UploadToSpaces | lib/storage.ts:39-55 | With no send failure, it stores the object (public-read) under the key and returns `GetPublicUrl(key)`. Otherwise it stores nothing and returns the error. |
| Extension.ExtensionOf | app/api/upload/route.ts:36 | Throws V8's TypeError exactly when the type has no "/". Otherwise the result is the segment after the first "/", with its first "jpeg" replaced by "jpg", and it contains no "/". |
| Extension.ExtensionOfParts | app/api/upscale/route.ts:90 | For `major/minor` with no other "/", the extension depends only on `minor`. |
| Extension.KnownExtensions | app/api/upload/route.ts:36 | image/jpeg, image/png and image/webp give jpg, png and webp. |
| Hex.HexEncode | app/api/webhooks/lemon-squeezy/route.ts:9 | `digest("hex")` writes two characters per byte. |
| Hex.HexDecode | app/api/webhooks/lemon-squeezy/route.ts:12-13 | `Buffer.from(_, "hex")` yields at most one byte per two characters. |
| Hex.HexDecodeAfterEncoding | app/api/webhooks/lemon-squeezy/route.ts:12-13 | Decoding an encoding followed by any text gives the bytes, then what the text decodes to alone. |
| Hex.HexRoundTrip | app/api/webhooks/lemon-squeezy/route.ts:9-13 | Decoding the hex digest gives the digest. |
| Claid.GetClaidEndpoint | lib/providers/claid.ts:8-10 | Always one of the two endpoints, and the portrait one exactly for "portrait". |
| Claid.ClaidEndpointsPinned | lib/providers/claid.ts:3-10 | portrait gives `/v1-beta1/image/upscale/portrait`; product and unknown categories give `/v1-beta1/image/upscale/smart`. |
| Claid.ClaidOutputUrl | lib/providers/claid.ts:23-48 | A throw from the POST or from reading its JSON is that error. A non-ok reply is an error carrying its text. For an ok reply the URL is `data.output.tmp_url`, falling back to `output.url` only when `tmp_url` is absent. An empty or missing choice is the "no output URL" error. |
| Claid.UpscaleWithClaid | lib/providers/claid.ts:18-50 | Posts to the category's endpoint with JPEG quality 95 and the scale as upscaling factor. A rejected `fetch` or a `res.json()` that throws propagates its error. Otherwise the result is that reply's output URL, never empty. |
| Fal.ModelFor | lib/providers/fal.ts:27 | Always aura-sr or esrgan, and esrgan exactly for anime and restoration. |
| Fal.FalModelsPinned | lib/providers/fal.ts:6-12 | Clarity, product, portrait and unknown categories give aura-sr; anime and restoration give esrgan. |
| Fal.RequestFor | lib/providers/fal.ts:29-37 | The scale is sent both as `scale` and as `upscaling_factor`. |
| Fal.FalOutputUrl | lib/providers/fal.ts:39-46 | The URL is `image.url`, falling back to `images[0].url` only when `image.url` is absent. It is an error exactly when the choice is missing or empty. |
| Fal.UpscaleWithFal | lib/providers/fal.ts:24-49 | Subscribes to the category's model. A throw propagates; otherwise the result is the output URL read from the returned data. |
| Upload.ExtensionOfAllowed | app/api/upload/route.ts:36 | Each allowed type's extension is jpg, png or webp. |
| Upload.PlanUpload | app/api/upload/route.ts:9-37 | The guards run in order: 401 without a session or with an empty session id, 400 without a file, 400 for a type outside the three, 400 above 10 MB. It is accepted exactly when all pass, with key `GetStorageKey(user, fileId.ext, Input)`. |
| Upload.UploadKeyShape | app/api/upload/route.ts:36-38 | An accepted file's key reads back as `input/<user>/<fileId>.<ext>`. |
| Upload.TypeCheckedBeforeSize | app/api/upload/route.ts:22-34 | An oversized file of a wrong type is refused for its type. |
| Upload.SizeLimitInclusive | app/api/upload/route.ts:29-34 | 10485760 bytes are accepted; 10485761 are too large. |
| Upload.HandleUpload | app/api/upload/route.ts:9-44 | A rejected request stores nothing. An accepted one stores the file under its key and answers `{url, key}`, or stores nothing and crashes if the send fails. |
| Checkout.SelectVariant | app/api/billing/checkout/route.ts:16-26 | "credits" picks a package's variant and "subscription" a plan's; an unknown key gives "Invalid plan". Any other type gives "Invalid type". |
| Checkout.ProDependsOnType | app/api/billing/checkout/route.ts:16-23 | Plan "pro" selects `LS_VARIANT_PRO` for credits and `LS_VARIANT_PRO_SUB` for a subscription. |
| Checkout.HandleCheckout | app/api/billing/checkout/route.ts:6-48 | 401 without a session or with an empty session id, then the selection errors. Then the checkout request carries the store, variant, email, user id and billing redirect. A missing or empty URL gives 500, and otherwise the answer is the URL. |
| Checkout.CustomDataCarriesUserId | app/api/billing/checkout/route.ts:28-40 | A created checkout was requested with the session user id as `custom.user_id`. |
| Upscale.ValidateSubmission | app/api/upscale/route.ts:15-34 | The guards run in order: 401 without a session or with an empty session id, then 400 for a missing or empty inputUrl, an unknown category, and a scale other than 2 or 4 (absent means 4). A request that passes every guard is accepted, and an accepted submission carries exactly the checked values. |
| Upscale.AbsentScaleIsFour | app/api/upscale/route.ts:21 | A body without a scale is accepted with scale 4. |
| Upscale.NewJob | app/api/upscale/route.ts:45-60 | A new job is processing, with no output, error or completion time. It records the submission's user, category, inputUrl and scale, the category's primary provider, the creation time, and a cost of 4. |
| Upscale.EffectiveScale | app/api/upscale/route.ts:21 | An absent scale is 4, a number is itself, and any other value is no number. |
| Upscale.PrepareOutput | app/api/upscale/route.ts:80-91 | Propagates the fal error and the fetch error. The content type defaults to image/png. The step fails exactly when that type has no "/", and then the error is the TypeError of `split("/")[1].replace`, whose message becomes the job's `errorMsg`. Otherwise the key is `output/<user>/<fileId>.<ext>`. |
| Upscale.UpscaleAlwaysUsesFal | app/api/upscale/route.ts:83-84 | Every prepared output came from fal with the category's fal model and the scale, whatever provider the job recorded. |
| Upscale.OutputKeyShape | app/api/upscale/route.ts:89-91 | The output key reads back as `output/<user>/<fileId>.<ext>`. |
| Upscale.UpscaleService.Submit | app/api/upscale/route.ts:14-69 | Rejections change nothing. A balance below 4 gives 402. An accepted request adds the processing job and the debit of 4 for that job, which cannot fail after the balance check. |
| Upscale.UpscaleService.ProcessJob | app/api/upscale/route.ts:71-112 | On success the job is done with the public URL and completion time, the object is stored, and the ledger is untouched. On any failure the job is failed with the error's message, nothing is stored, and the refund of 4 is credited. |
| Upscale.UpscaleService.FailJob | app/api/upscale/route.ts:98-111 | Marks the job failed with the message and applies the refund transition. |
| Upscale.UpscaleService.SubmitAndRun | app/api/upscale/route.ts:63-110 | After an accepted submission, a failed job leaves the owner's balance unchanged with the usage and refund entries logged. A done job costs exactly 4. |
| Webhook.VerifyWebhookSignature | app/api/webhooks/lemon-squeezy/route.ts:7-18 | Accepts exactly when the signature hex-decodes to the HMAC digest; a length mismatch is a refusal, not a throw. |
| Webhook.GenuineSignatureAccepted | app/api/webhooks/lemon-squeezy/route.ts:9-14 | The digest written in hex is accepted. |
| Webhook.ShortSignatureRefused | app/api/webhooks/lemon-squeezy/route.ts:10-17 | A signature that decodes to a different length is refused. |
| Webhook.TrailingTextIgnored | app/api/webhooks/lemon-squeezy/route.ts:13 | The digest followed by text that decodes to nothing is still accepted. |
| Webhook.HasOrder | app/api/webhooks/lemon-squeezy/route.ts:51-54 | True exactly when some log entry carries that order id. |
| Webhook.Grant | app/api/webhooks/lemon-squeezy/route.ts:142-145 | A successful credit is acknowledged with the credited ledger. A failed one is the 500 "Internal error", with the subscription table as the branch left it. |
| Webhook.OrderCreated | app/api/webhooks/lemon-squeezy/route.ts:44-63 | A known order id or a non-package variant changes nothing. A new order for a package is `Grant` of its credits as a purchase tagged with the order id, which is the 500 "Internal error" when the credit fails. Any change is that credit. |
| Webhook.Upsert | app/api/webhooks/lemon-squeezy/route.ts:80-94 | A new id gets an active row with the plan key, monthly credits and period end. An existing row only becomes active with the new period end. Other rows are unchanged, and keying by id is kept. |
| Webhook.SubscriptionStarted | app/api/webhooks/lemon-squeezy/route.ts:65-98 | A non-plan variant changes nothing. Otherwise it upserts, then credits the event user the plan's monthly credits. |
| Webhook.PaymentSucceeded | app/api/webhooks/lemon-squeezy/route.ts:100-126 | An unknown subscription changes nothing. Otherwise it sets renewedAt and the period end, then credits the stored user the stored monthly credits. |
| Webhook.Cancel | app/api/webhooks/lemon-squeezy/route.ts:128-136 | Only that subscription's status becomes cancelled. |
| Webhook.Dispatch | app/api/webhooks/lemon-squeezy/route.ts:42-145 | Each event name runs its own case: `order_created` runs `OrderCreated`; created and resumed run `SubscriptionStarted`; payment success runs `PaymentSucceeded`; cancelled and expired run `Cancel`. Every event is acknowledged or fails with 500, and a failed one leaves the ledger as it was. |
| Webhook.Deliver | app/api/webhooks/lemon-squeezy/route.ts:20-148 | Checks run in order: 401 for a bad signature, 400 for non-JSON, the framework 500 for `null`, 400 for a missing or empty user id. None of these rejections changes state. A delivery that passes all gates is `Dispatch` for its event and user. |
| Webhook.SignatureCheckedFirst | app/api/webhooks/lemon-squeezy/route.ts:24-26 | With a bad signature, the outcome is the same whatever the body is. |
| Webhook.OrderReplayCreditsOnce | app/api/webhooks/lemon-squeezy/route.ts:50-54 | Replaying an `order_created` event leaves the state as the first delivery left it. When the first delivery credited, the replay is acknowledged. |
| Webhook.OrderDeliveryReplay | app/api/webhooks/lemon-squeezy/route.ts:44-63 | A valid `order_created` delivery sent twice changes the state once. |
| Webhook.OrderCreditsPackage | app/api/webhooks/lemon-squeezy/route.ts:56-61 | A new order for a package credits its owner exactly 40, 120 or 400, with one purchase entry for the order. |
| Webhook.PaymentReplayCreditsAgain | app/api/webhooks/lemon-squeezy/route.ts:120-124 | Renewals have no replay guard: a repeated payment event credits twice. |
| Webhook.EndingTouchesOnlyStatus | app/api/webhooks/lemon-squeezy/route.ts:128-136 | Cancellation and expiry leave the ledger alone and change only that row's status. |
| Webhook.UnknownEventIgnored | app/api/webhooks/lemon-squeezy/route.ts:138-140 | An unknown event name is acknowledged with no change. |
| Webhook.DeliverKeepsKeys | app/api/webhooks/lemon-squeezy/route.ts:80-94 | Every delivery keeps the subscription table keyed by id. |
| Webhook.BillingStore.GrantCredits | app/api/webhooks/lemon-squeezy/route.ts:61 | Performs `Grant` on the stored ledger. |
| Webhook.BillingStore.OrderCreatedCase | app/api/webhooks/lemon-squeezy/route.ts:44-63 | Performs `OrderCreated` on the stored state. |
| Webhook.BillingStore.SubscriptionStartedCase | app/api/webhooks/lemon-squeezy/route.ts:65-98 | Performs `SubscriptionStarted` on the stored state. |
| Webhook.BillingStore.PaymentSucceededCase | app/api/webhooks/lemon-squeezy/route.ts:100-126 | Performs `PaymentSucceeded` on the stored state. |
| Webhook.BillingStore.HandleWebhook | app/api/webhooks/lemon-squeezy/route.ts:20-148 | The new state and the response are those of `Deliver`, with the signature check of the payload and the header (absent means ""). The ledger invariant and keying by id are kept. |

## Left out

- The React pages and components, `auth.ts`, the Jest configuration and `app/api/user/credits/route.ts` (a wrapper over `getUserCredits`) are not part of this model.
- `lib/providers/runware.ts` is not part of this model: no route calls it, and the recorded provider and the fallback are never used (`processJob` always calls fal).
- `getSpacesClient` and `getPresignedUploadUrl` are SDK setup and presigning, with nothing to verify beyond the S3 call. The S3 `send` is only its outcome.
- The HMAC-SHA256 computation is an uninterpreted parameter. `timingSafeEqual`'s constant-time behaviour cannot be expressed; only its result and its length throw are modelled.
- Concurrency is not modelled. Nothing covers the transaction isolation of `deductCredits`/`addCredits`, or the race between the order lookup and the credit in `order_created`. Replay is proved for sequential deliveries only.
- `processJob` runs fire-and-forget. Here it is a later call of its own, so a job could be processed twice, and no refund deduplication is claimed (the source has none).
- Renewal credits have no deduplication in the source. `PaymentReplayCreditsAgain` states this instead of hiding it.
- A JSON body of `null` in the upscale and checkout routes makes the destructuring of `body` throw, which the framework answers with a 500. That crash is not modelled: `UpscaleBody` and `CheckoutBody` are always objects, so a `null` body is treated like `{}`. The webhook's `null` body is modelled.
- Failures of `req.json()` and `req.formData()` escape their handlers and become framework 500s. They are not modelled.
- Database errors are not modelled, except the `addCredits` throw for a missing user. What another database error would do depends on where it is thrown:
  - In the webhook, every database call is inside the `try` (app/api/webhooks/lemon-squeezy/route.ts:42-145). A throw there is answered by the handler's own 500 "Internal error" (lines 142-144), and the writes made before it are kept.
  - In `processJob`, a throw from the `done` update (app/api/upscale/route.ts:94-97) is caught at line 98. The job is then marked failed and refunded, although its output is already stored.
  - In `processJob`, a throw from the `failed` update (lines 101-107) escapes before the refund, so no refund is written. No HTTP response is involved in either `processJob` case.
  - In the POST routes, a throw from `getUserCredits` (line 37), `upscaleJob.create` (lines 50-60) or `deductCredits` (line 63) escapes the handler and the framework answers 500. After a `deductCredits` throw the job row exists, but no debit is logged and `processJob` is not started.
- Prisma schema constraints such as foreign keys are not part of this model.
- `new Date(renewsAt)` is not parsed. The period end is kept as its text, so an unparsable date does not throw here.
- JSON values are abstracted to the fields the handlers read. A non-string value where a string is compared counts as absent. In the webhook, `String(...)` conversion is assumed already done. An environment variant id that is unset (`undefined`) is not representable, because `VariantConfig` holds strings.
- JavaScript prototype keys (`CREDIT_PACKAGES["constructor"]`) are not modelled: the tables are lists of their own entries.
- `fetch`'s body, `arrayBuffer` and `Buffer.from(...)` are the downloaded bytes as a sequence; streaming and size limits are not modelled.
- Logging (`console.error`) is not modelled.
