# Thumbnail generator: a Dafny model

This project models the server actions, webhooks and client-side rules of a
thumbnail-generation service. A signed-in user uploads portraits and optional
background images and submits keywords. The service then:

1. creates a `generations` row and triggers an external workflow;
2. receives the workflow's callback, which records one `thumbnails` row per
   generated image and sets the final status of the generation.

Billing runs through a payment provider. Its webhook keeps product, price and
subscription tables in step, and a checkout action creates customers.

Every call to an outside service becomes a parameter of the model: the
authenticated user, row counts, database write outcomes, storage
uploads and signing, the HMAC function, HTTP exchanges, payment-provider
objects, UUIDs, object URLs and the clock. What remains is the sequential
logic, modelled as follows:

- **Stateful code:** code that changes tables or component state is a
  `class` whose methods state the complete new state:
  - `GenerationData.GenerationTables`: the generations map, the append-only thumbnail rows and the stored objects;
  - `Portraits.PortraitTable`;
  - `BillingData.BillingTables`;
  - `Settings.ProfileTable`;
  - `GenerationStatus.Watcher`;
  - `BackgroundUpload.Picker`;
  - `GenerationForm.Form`;
  - `PortraitUpload.Dialog` and `PortraitUpload.OnboardingUpload`.
- **Loops:** loops in the source are `while` loops with invariants:
  - signing the upload URLs;
  - the callback's per-item loop;
  - the file scan of the background picker.

  Each loop is proved against a recursive specification function.
- **Pure rules:** these are functions, with lemmas about them:
  - schemas;
  - plan lookups;
  - route gating;
  - string formats.
- **JavaScript semantics** are spelled out in module `Common`:
  - truthiness, and `||` / `??` on strings that may be missing;
  - `trim`, `split`, `join`, `slice` with a negative end, `startsWith`, `includes`;
  - decimal rendering of numbers.

Modules, one per source file or small group:

| module | source |
|---|---|
| `Common` | shared JavaScript string semantics |
| `Files` | the browser `File` object the client components receive |
| `Validations` | `src/lib/validations/generations.ts`, `src/lib/validations/portraits.ts` |
| `Admin` | `src/lib/admin.ts` |
| `Plans` | `src/lib/billing/plans.ts` |
| `N8nClient` | `src/lib/n8n/client.ts` |
| `Portraits` | `src/actions/portraits.ts` |
| `GenerationData` | the generation and thumbnail records of `src/types/database.ts` |
| `Generations` | `src/actions/generations.ts` |
| `Callback` | `src/app/api/webhooks/n8n-callback/route.ts` |
| `BillingData` | the product, price, subscription and customer records |
| `StripeWebhook` | `src/app/api/webhooks/stripe/route.ts` |
| `BillingActions` | `src/actions/billing.ts` |
| `Settings` | `src/actions/settings.ts` |
| `Middleware` | `src/middleware.ts` |
| `GenerationStatus` | `src/hooks/use-generation-status.ts` |
| `BackgroundUpload` | `src/components/generation/background-upload.tsx` |
| `GenerationForm` | `src/components/generation/generation-form.tsx` |
| `PortraitUpload` | `src/components/portraits/portrait-upload-dialog.tsx`, `src/components/onboarding/portrait-upload.tsx` |
| `UserNav` | `src/components/dashboard/user-nav.tsx` |
| `GalleryList` | `src/components/generation/gallery-list.tsx` |
| `ThumbnailGrid` | `src/components/generation/thumbnail-grid.tsx` |

The monthly quota is a parameter, `limit`. `createGeneration` compares the
month's count against `FREE_TIER_MONTHLY_QUOTA`
(`src/actions/generations.ts:108`), and `getGenerationQuota` reports the same
name as the limit (`src/actions/generations.ts:229`). But
`src/actions/generations.ts:9` imports that name from a module that does not
export it (`src/lib/validations/generations.ts:1-22`), so as written the limit
is not a defined number. The model therefore takes the limit as a parameter,
and it applies to every caller who is not the administrator.

## Model

| member | source | states |
|---|---|---|
| `Admin.IsAdmin` | src/lib/admin.ts:5-11 | true iff an administrator address is configured (truthy) and the email equals it exactly; an unset or empty address, or an empty email, is never administrator |
| `Validations.EmptyPathIssues` | src/lib/validations/generations.ts:12-13 | no issue iff every background path is non-empty; every issue is "Invalid background path" |
| `Validations.CreateGenerationIssues` | src/lib/validations/generations.ts:6-15 | defines the schema's issues in field order, the reference for `ParseCreateGeneration` |
| `Validations.ParseCreateGeneration` | src/lib/validations/generations.ts:6-15 | accepts iff portrait id is a UUID, keywords are 3..500 characters, and there are at most 7 non-empty paths; returns the input unchanged; otherwise the first issue in field order: invalid portrait id, too short, too long, too many, invalid path |
| `Validations.ParseUploadPortrait` | src/lib/validations/portraits.ts:3-7 | accepts iff the storage path is non-empty, the public URL is a URL and any label has at most 100 characters; each failure gives its own message in field order |
| `Validations.UploadPortraitIssues` | src/lib/validations/portraits.ts:3-7 | defines the upload schema's issues in field order |
| `Validations.ParseUpdateLabel` | src/lib/validations/portraits.ts:9-12 | accepts iff the portrait id is a UUID and the label has at most 100 characters (the empty label included); otherwise the first failing field's message |
| `Validations.UpdateLabelIssues` | src/lib/validations/portraits.ts:9-12 | defines the label schema's issues in field order |
| `Plans.EnvPrice` | src/lib/billing/plans.ts:42 | an unset or empty environment price gives no price id; a set one is kept |
| `Plans.PlanByKey` | src/lib/billing/plans.ts:22-68 | a plan exists exactly for the keys free, pro and agency, and its id spells that key |
| `Plans.GetAllPlans` | src/lib/billing/plans.ts:97-99 | three plans in order free, pro, agency, each the plan its key looks up |
| `Plans.FindPlan` | src/lib/billing/plans.ts:77-84 | the id of the first plan whose price id equals the given one; free when none does |
| `Plans.GetPlanByPriceId` | src/lib/billing/plans.ts:74-85 | a missing or empty price id maps to free |
| `Plans.ConfiguredPriceMapsToPlan` | src/lib/billing/plans.ts:74-85 | a configured pro price maps to pro; a configured agency price distinct from the pro price maps to agency |
| `Plans.UnsetPriceNeverMatches` | src/lib/billing/plans.ts:42-57 | with the pro (agency) price unset, no price id maps to pro (agency) |
| `Plans.UnknownPriceIsFree` | src/lib/billing/plans.ts:84 | an id that is neither configured price maps to free |
| `Plans.GetPlanQuota` | src/lib/billing/plans.ts:90-92 | free 5, pro 50, agency 200; an unknown key gets the free quota |
| `Plans.PlanHasFeature` | src/lib/billing/plans.ts:104-106 | true iff some plan with that key lists exactly that feature |
| `N8nClient.Field` | src/lib/n8n/client.ts:39-48 | a JSON object has a value for a key iff some field carries that key |
| `N8nClient.FieldAt` | src/lib/n8n/client.ts:39-48 | the first field carrying a key gives that key's value |
| `N8nClient.BackgroundImages` | src/lib/n8n/client.ts:43-46 | one entry per URL, entry i being `{url: background_urls[i], index: i}` |
| `N8nClient.WorkflowBody` | src/lib/n8n/client.ts:39-48 | defines the JSON body, its keys in source order |
| `N8nClient.WorkflowBodyFields` | src/lib/n8n/client.ts:39-48 | generation id, portrait URL and callback URL pass through unchanged; keywords travel under `Keywords`, and no `keywords` key exists |
| `N8nClient.WorkflowBodyImages` | src/lib/n8n/client.ts:43-46 | `Background Images` is an array of the same length as the URLs whose entry i has `url` = URL i and `index` = i |
| `N8nClient.TriggerWorkflow` | src/lib/n8n/client.ts:28-63 | no webhook URL: throws before any request; otherwise one JSON POST of the body; a network error rethrows; non-2xx throws with status and body text; 2xx returns the parsed JSON when the content type says JSON, else `{success: true}` |
| `N8nClient.IsJsonContent` | src/lib/n8n/client.ts:57-58 | defines a JSON response: a content type that contains `application/json` |
| `Portraits.CountOwned` | src/actions/portraits.ts:30-35 | at most the row count; zero iff the user owns no row |
| `Portraits.FindOwned` | src/actions/portraits.ts:87-96 | a found row is in the table with that id and owner; none found means no row has both |
| `Portraits.Remove` | src/actions/portraits.ts:109-116 | keeps exactly the rows that are not the (id, owner) row |
| `Portraits.ConsKeepsInvariants` | src/actions/portraits.ts:37-51 | adding a row with a fresh id, active only if its owner has no active row, keeps ids unique and at most one active portrait per user |
| `Portraits.RemoveKeepsInvariants` | src/actions/portraits.ts:109-116 | deleting keeps ids unique and at most one active portrait per user |
| `Portraits.DeactivateAll` | src/actions/portraits.ts:160-166 | every row of the user becomes inactive, other rows are unchanged |
| `Portraits.Activate` | src/actions/portraits.ts:169-175 | only the matching (id, owner) row becomes active |
| `Portraits.Relabel` | src/actions/portraits.ts:201-205 | only the label of the matching (id, owner) row changes |
| `Portraits.SetActiveEffect` | src/actions/portraits.ts:160-178 | after deactivate-all then activate-one, the user's rows are active iff they are the chosen id; other users' rows and all other fields are untouched |
| `Portraits.SetActiveKeepsInvariants` | src/actions/portraits.ts:160-178 | set-active keeps at most one active portrait per user |
| `Portraits.DeactivateKeepsInvariants` | src/actions/portraits.ts:160-166 | deactivate-all (the state when the activate step fails) keeps the invariants |
| `Portraits.MostRecentExists` | src/actions/portraits.ts:119-128 | a user with a portrait has one with the latest creation time |
| `Portraits.PromoteKeepsInvariants` | src/actions/portraits.ts:128-134 | promoting one portrait of a user with none active keeps the invariants |
| `Portraits.RemovedWasOnlyActive` | src/actions/portraits.ts:119-134 | after deleting the user's active portrait, none of the user's remaining portraits is active, so the promotion cannot create a second active one |
| `Portraits.RemoveCount` | src/actions/portraits.ts:78-116 | deleting an owned portrait lowers the owner's count by exactly one |
| `Portraits.RemoveNothing` | src/actions/portraits.ts:109-116 | deleting a row that does not match changes nothing |
| `Portraits.CountOwnedSameOwners` | src/actions/portraits.ts:128-134 | flag and label updates never change how many portraits a user owns |
| `Portraits.AfterDeleteCount` | src/actions/portraits.ts:78-134 | a successful delete leaves the owner exactly one portrait fewer |
| `Portraits.PortraitTable.Upload` | src/actions/portraits.ts:13-56 | unauthenticated and schema errors change nothing; an insert error is returned; otherwise one row is appended: active iff the count query succeeded and found no portrait of the user, with a missing label stored as "" |
| `Portraits.PortraitTable.Delete` | src/actions/portraits.ts:58-139 | non-UUID id, only portrait (count ≤ 1) and not-owned each fail and change nothing; the stored image is removed unless storage fails; a row-delete error is returned; otherwise the row is gone and, if it was active, the most recent remaining portrait becomes active |
| `Portraits.PortraitTable.SetActive` | src/actions/portraits.ts:141-183 | the guards fail without change; a failing deactivate changes nothing; a failing activate leaves every portrait of the user inactive; success gives deactivate-all then activate-one |
| `Portraits.PortraitTable.UpdateLabel` | src/actions/portraits.ts:185-214 | success exactly when the user is signed in, the input passes the schema and the write succeeds, and then only the matching row's label changes; each failure returns its own message (not authenticated, the schema's first message, the write error) and leaves the table as it was |
| `Generations.UploadPath` | src/actions/generations.ts:42 | the path lies under the user's folder |
| `Generations.UploadPathsDistinct` | src/actions/generations.ts:41-42 | two indexes of one batch never share a path |
| `Generations.CreateBackgroundUploadUrls` | src/actions/generations.ts:23-59 | unauthenticated, then count outside 1..7, each with its own error; on success exactly `count` URLs in index order with path `{user}/{timestamp}-{i}.jpg`, each signed for its path; an error iff some signing fails, reporting the first failing one, with no partial list |
| `Generations.UploadUrlsDistinct` | src/actions/generations.ts:38-58 | the returned paths are pairwise distinct and all under the caller's folder |
| `Generations.CountOrZero` | src/actions/generations.ts:105 | `count ?? 0` |
| `Generations.Admit` | src/actions/generations.ts:71-125 | the guards in order: authentication, the schema's first message, the quota (skipped for the administrator; a count error, or a count at or above the limit, refuses), portrait ownership; admits iff all pass, with the caller's own portrait |
| `Generations.LimitReached` | src/actions/generations.ts:110 | defines the quota refusal message with the limit |
| `Generations.AdminSkipsQuota` | src/actions/generations.ts:91-113 | for the administrator the month count has no influence |
| `Generations.CallbackUrl` | src/actions/generations.ts:154 | the callback URL starts with the configured app URL |
| `Generations.NewGeneration` | src/actions/generations.ts:134-145 | the inserted row is pending, progress 0, step "Queued", background count = number of paths, owned by the caller, with the portrait's URL |
| `Generations.TriggerPayloadFor` | src/actions/generations.ts:154-163 | the payload carries the new id, the portrait URL, the keywords, the public URL of each path in order, and the callback URL |
| `Generations.AfterTrigger` | src/actions/generations.ts:166-188 | a returned trigger makes the row processing / "Starting workflow" with a start time; a thrown one makes it failed with the thrown message |
| `Generations.CreateGeneration` | src/actions/generations.ts:71-193 | a refusal or a failed insert returns its error with no row; otherwise the pending row is inserted, the workflow triggered with its payload, the status update applied if it lands, and the id returned iff the trigger returned |
| `Generations.CreatedStatus` | src/actions/generations.ts:166-188 | from pending, the row goes to processing iff the trigger returned and to failed iff it threw |
| `Generations.UnconfiguredWorkflowFails` | src/actions/generations.ts:156-188 | with no workflow URL the new row ends failed with the not-configured message |
| `Generations.GenerationQuota` | src/actions/generations.ts:198-232 | unauthenticated and count errors are reported; otherwise used = `count ?? 0`, and the limit is unbounded exactly for the administrator, else the configured limit |
| `Generations.QuotaReportMatchesAdmission` | src/actions/generations.ts:91-113 | for a non-administrator the admission check refuses for quota exactly when the quota report shows used ≥ limit |
| `Callback.VerifySignature` | src/app/api/webhooks/n8n-callback/route.ts:26-46 | no secret: valid; secret without signature: invalid; valid iff no secret or the signature equals the HMAC; throws iff both are present and their UTF-8 byte lengths differ |
| `Callback.Utf8Length` | src/app/api/webhooks/n8n-callback/route.ts:42-44 | the byte length `Buffer.from` gives a string: at least its number of code points |
| `Callback.ThumbnailPathInFolder` | src/app/api/webhooks/n8n-callback/route.ts:195 | a thumbnail path lies under `{user}/{generation}/` |
| `Callback.ThumbnailPath` | src/app/api/webhooks/n8n-callback/route.ts:195 | defines the storage path `{user}/{generation}/{p}-{b}.jpg` |
| `Callback.ItemRow` | src/app/api/webhooks/n8n-callback/route.ts:157-238 | one row per item carrying its prompt and indexes; status success iff the item succeeds; a failed row has empty path and URL and the reported, download or upload error; a success row has the `{user}/{generation}/{p}-{b}.jpg` path and its public URL |
| `Callback.ReportedFailedIgnoresEffects` | src/app/api/webhooks/n8n-callback/route.ts:158-173 | an item the workflow reports failed gets the same failed row whatever the download and upload would have done, never counts as a success and stores no object: its image is never fetched or stored |
| `Callback.SuccessCountBounds` | src/app/api/webhooks/n8n-callback/route.ts:157-238 | the success count is zero iff no item succeeds and equals the item count iff every item does |
| `Callback.SuccessCount` | src/app/api/webhooks/n8n-callback/route.ts:154-238 | the reference success count of the item loop: never more than the items |
| `Callback.WrittenRows` | src/app/api/webhooks/n8n-callback/route.ts:160-237 | the reference list of thumbnail rows that land, in item order: never more than the items |
| `Callback.PathsOf` | src/app/api/webhooks/n8n-callback/route.ts:195 | each item's storage path, in item order |
| `Callback.Successes` | src/app/api/webhooks/n8n-callback/route.ts:157-238 | whether each item succeeds, in item order |
| `Callback.AllRowsWritten` | src/app/api/webhooks/n8n-callback/route.ts:160-237 | when every insert lands there is exactly one row per item, row k being item k's |
| `Callback.SelectedExactly` | src/app/api/webhooks/n8n-callback/route.ts:195-203 | a path is selected iff some flagged position carries it |
| `Callback.StoredPathsSelected` | src/app/api/webhooks/n8n-callback/route.ts:195-203 | the stored objects are the paths of the successful items |
| `Callback.StoredPathsExactly` | src/app/api/webhooks/n8n-callback/route.ts:195-203 | a path is stored iff some successful item has it |
| `Callback.FinalStatus` | src/app/api/webhooks/n8n-callback/route.ts:241-248 | failed iff no success and some failure, partial iff both, completed iff no failure (also for no items); always terminal |
| `Callback.FailureSummary` | src/app/api/webhooks/n8n-callback/route.ts:257 | a failure message exists iff some item failed |
| `Callback.Finished` | src/app/api/webhooks/n8n-callback/route.ts:251-261 | final status, progress 100, thumbnail count = successes, failure summary, completion time; nothing else changes |
| `Callback.FailureRecorded` | src/app/api/webhooks/n8n-callback/route.ts:138-150 | status failed, `error ?? "Generation failed"`, progress 100, completion time; nothing else changes |
| `Callback.EarlyReply` | src/app/api/webhooks/n8n-callback/route.ts:76-135 | in order: a length mismatch crashes, a bad signature is 401, bad JSON and a missing id are 400, missing configuration is 500, an unknown or unreadable generation is 404; the handler goes on iff none applies |
| `Callback.HandleCallback` | src/app/api/webhooks/n8n-callback/route.ts:76-267 | early replies write nothing; a failed payload records the failure and inserts no thumbnail; otherwise the rows of the landed inserts are appended, the successful items' objects stored, the final status written (if the update lands), and the message reports the counts |
| `Callback.ProcessedMessage` | src/app/api/webhooks/n8n-callback/route.ts:265 | defines the reply message with the total, success and failure counts |
| `Callback.RecordItems` | src/app/api/webhooks/n8n-callback/route.ts:157-238 | the counters are the success count and the rest, summing to the item count; the table gains exactly the landed rows in item order and the store the successful items' paths |
| `Callback.RecordItem` | src/app/api/webhooks/n8n-callback/route.ts:158-237 | one item: counted as success iff it succeeds; its row is appended iff its insert lands; its object is stored iff it succeeds |
| `Callback.PrefixStep` | src/app/api/webhooks/n8n-callback/route.ts:157-238 | one more item adds exactly its own count, row and path |
| `Callback.Coalesce2` | src/app/api/webhooks/n8n-callback/route.ts:155 | `payload.thumbnails ?? []` |
| `Callback.IndexesStep` | src/app/api/webhooks/n8n-callback/route.ts:157-238 | one more item joins exactly one of the success and failure index sets |
| `Callback.SuccessIndexCount` | src/app/api/webhooks/n8n-callback/route.ts:157-238 | each item is counted exactly once: successes = number of succeeding indexes, failures = the rest |
| `Callback.FinalStatusMatchesItems` | src/app/api/webhooks/n8n-callback/route.ts:241-248 | the written status is completed iff every item succeeded, failed iff there are items and none succeeded, partial iff some succeeded and some failed |
| `Callback.ThumbnailPathsDistinct` | src/app/api/webhooks/n8n-callback/route.ts:195 | items with different index pairs get different storage paths |
| `Callback.DashSplit` | src/app/api/webhooks/n8n-callback/route.ts:195 | the rendered prompt index ends at the first '-' after its sign, so the path determines both indexes |
| `BillingData.CustomerOf` | src/actions/billing.ts:35-39 | the user's customer row if there is one; none means no row for that user |
| `BillingData.UpsertCustomer` | src/actions/billing.ts:55-58 | afterwards the user's row is the new one and every other user's lookup is unchanged |
| `BillingData.UpsertCustomerUnique` | src/actions/billing.ts:55-58 | the upsert keeps user ids unique |
| `BillingData.UsersWithCustomer` | src/app/api/webhooks/stripe/route.ts:208-221 | exactly the users whose row carries the provider customer id |
| `StripeWebhook.FirstImage` | src/app/api/webhooks/stripe/route.ts:105 | `images?.[0] ?? null` |
| `StripeWebhook.ProductRowOf` | src/app/api/webhooks/stripe/route.ts:99-113 | the product row copies id, active, name, description, metadata and the first image |
| `StripeWebhook.ProductIdOf` | src/app/api/webhooks/stripe/route.ts:118 | the product string, or the embedded product's id |
| `StripeWebhook.PriceRowOf` | src/app/api/webhooks/stripe/route.ts:115-134 | the price row copies the price's fields; the interval fields are present iff the price is recurring |
| `StripeWebhook.TimeOrNull` | src/app/api/webhooks/stripe/route.ts:166-182 | a missing or zero time is null; any other is kept |
| `StripeWebhook.SubscriptionRowOf` | src/app/api/webhooks/stripe/route.ts:155-185 | owner, status, the first item's price and quantity, and the optional times |
| `StripeWebhook.UserIdFromCustomer` | src/app/api/webhooks/stripe/route.ts:208-221 | a user only when the query succeeds and exactly one row carries the customer id |
| `StripeWebhook.SubscriptionOwner` | src/app/api/webhooks/stripe/route.ts:142-150 | a non-empty metadata user id wins; otherwise the customer lookup's truthy answer; no owner means skip |
| `StripeWebhook.UpsertProduct` | src/app/api/webhooks/stripe/route.ts:99-113 | throws iff the write fails; otherwise the row keyed by the product id is replaced or added |
| `StripeWebhook.UpsertPrice` | src/app/api/webhooks/stripe/route.ts:115-134 | throws iff the write fails; otherwise the row keyed by the price id is replaced or added |
| `StripeWebhook.UpsertSubscription` | src/app/api/webhooks/stripe/route.ts:136-191 | without an owner nothing is written and nothing thrown; otherwise an empty item list or a failed write throws, else the keyed row is upserted |
| `StripeWebhook.DeleteSubscription` | src/app/api/webhooks/stripe/route.ts:193-206 | the row stays, marked canceled with an end time; an unknown id changes nothing |
| `StripeWebhook.Canceled` | src/app/api/webhooks/stripe/route.ts:197-200 | status canceled and an end time; nothing else changes |
| `StripeWebhook.HandleWebhook` | src/app/api/webhooks/stripe/route.ts:23-97 | no signature or a failed check: 400 with no write; an event outside the list: acknowledged with no write; each relevant kind writes only its own table; a non-subscription checkout writes nothing; a throw gives 500; customers are never touched; a subscription created/updated event with an owner answers 500 and leaves the subscriptions untouched when its item list is empty or the write fails; a deleted event answers 500 iff the write fails and changes nothing when the write fails or the id is unknown |
| `StripeWebhook.WellTyped` | src/app/api/webhooks/stripe/route.ts:53-90 | defines the casts the switch makes: each event kind carries the object it is read as |
| `StripeWebhook.Checkout` | src/app/api/webhooks/stripe/route.ts:65-80 | product, then price, then subscription, stopping at the first throw |
| `StripeWebhook.CheckoutWrites` | src/app/api/webhooks/stripe/route.ts:65-80 | defines the writes of a subscription checkout: product, price, then subscription, stopping at the first throw, with the reply |
| `StripeWebhook.ProductReplay` | src/app/api/webhooks/stripe/route.ts:99-113 | replaying a product event leaves one row for the id, holding the latest values |
| `StripeWebhook.MetadataOwnerWins` | src/app/api/webhooks/stripe/route.ts:142-150 | a metadata owner does not depend on the customer table |
| `StripeWebhook.CustomerOwnerIsLinked` | src/app/api/webhooks/stripe/route.ts:208-221 | an owner found through the lookup has a row carrying the subscription's customer id |
| `BillingActions.ConfiguredPrice` | src/actions/billing.ts:9-12 | only the pro and agency keys have a price |
| `BillingActions.PriceNotConfigured` | src/actions/billing.ts:22 | defines the unconfigured-price message, naming the plan and its variable |
| `BillingActions.AppUrl` | src/actions/billing.ts:76-77 | defines the app URL as rendered into a template: `undefined` when unset |
| `BillingActions.CreateCheckoutSession` | src/actions/billing.ts:18-90 | an unconfigured price fails before authentication; then authentication; an existing customer id that the customers query returns is reused with no creation; a failed query, whose error is ignored, counts as a missing row; otherwise a customer is created and stored by user id, or "Failed to create billing account"; the session has quantity 1 and the settings URLs; a missing or empty session URL gives the checkout error, a truthy one is returned |
| `BillingActions.CreatePortalSession` | src/actions/billing.ts:96-125 | a session iff the customers query succeeds and returns a stored customer id for the caller, using that id and returning to settings; otherwise "No billing account found", a failed query included |
| `Settings.ValidateName` | src/actions/settings.ts:21-24 | accepts iff the trimmed name has 1..100 characters, returning the trimmed name |
| `Settings.ValidatedNameIsClean` | src/actions/settings.ts:21-30 | an accepted name is a slice of the input with no whitespace at either end, and validating it again returns it |
| `Settings.TrimOfClean` | src/actions/settings.ts:21 | trimming a string with no whitespace at either end gives it back |
| `Settings.ProfileTable.UpdateProfile` | src/actions/settings.ts:9-40 | unauthenticated, a bad length or a failed write each return an error and change nothing; success stores the trimmed name in the caller's profile only |
| `Middleware.Decide` | src/middleware.ts:16-73 | "/" passes; a logged-in user on another public page goes to /dashboard unless on /auth/callback or /reset-password…; a non-public page without login goes to /login with the path; no profile row passes; an incomplete profile outside onboarding goes to /onboarding and a completed one on onboarding to /dashboard |
| `Middleware.MatchesPublic` | src/middleware.ts:21-25 | defines one public-route test: "/" only matches itself, any other route matches as a prefix |
| `Middleware.IsPublicRoute` | src/middleware.ts:4-12 | defines a public path: some public route matches it |
| `Middleware.IsOnboardingRoute` | src/middleware.ts:14 | defines an onboarding path: it starts with /onboarding or /welcome |
| `Middleware.RootOnlyExact` | src/middleware.ts:21-25 | a public path other than "/" is public through a prefix other than "/" |
| `Middleware.PublicRouteExamples` | src/middleware.ts:4-25 | "/loginX" and the payment webhook are public; the workflow callback is not and is sent to /login |
| `Middleware.OnboardingGate` | src/middleware.ts:48-70 | a completed profile is never sent to onboarding; an incomplete one is always sent there outside onboarding routes |
| `GenerationStatus.Classify` | src/hooks/use-generation-status.ts:63-70 | completed and partial complete with the row; failed errors with `error_message \|\| "Generation failed"`; pending and processing report nothing |
| `GenerationStatus.ClassifyIffTerminal` | src/hooks/use-generation-status.ts:63-70 | a callback fires exactly for the terminal statuses |
| `GenerationStatus.Delivered` | src/hooks/use-generation-status.ts:66-69 | a notice is delivered iff its callback was supplied |
| `GenerationStatus.Watcher.OnFetch` | src/hooks/use-generation-status.ts:49-73 | loading ends; a fetch error calls `onError(message)` and leaves the generation as it was; a row is stored and classified |
| `GenerationStatus.Watcher.OnUpdate` | src/hooks/use-generation-status.ts:88-97 | the row replaces the stored one and is classified |
| `GenerationStatus.Watcher.Report` | src/hooks/use-generation-status.ts:63-70 | exactly the classified notice is delivered |
| `BackgroundUpload.ValidateFile` | src/components/generation/background-upload.tsx:28-40 | passes iff JPEG, PNG or WebP of at most 5 MiB; the type is checked first, each failure has its message |
| `BackgroundUpload.ValidFile` | src/components/generation/background-upload.tsx:28-40 | defines an acceptable background: JPEG, PNG or WebP of at most 5 MiB |
| `BackgroundUpload.Accepted` | src/components/generation/background-upload.tsx:50-57 | the files kept by the scan; no more than were offered |
| `BackgroundUpload.RejectionToasts` | src/components/generation/background-upload.tsx:50-57 | the messages the scan shows, one per rejected file |
| `BackgroundUpload.ToProcess` | src/components/generation/background-upload.tsx:47-48 | defines the files looked at: the first `7 - files.length` offered |
| `BackgroundUpload.PreviewMap` | src/components/generation/background-upload.tsx:54-55 | the previews the scan creates; none for no files |
| `BackgroundUpload.AcceptedMembers` | src/components/generation/background-upload.tsx:50-57 | the accepted files are exactly the offered files that pass validation |
| `BackgroundUpload.AcceptedAppend` | src/components/generation/background-upload.tsx:50-57 | accepted files keep their offered order |
| `BackgroundUpload.AcceptedOrRejected` | src/components/generation/background-upload.tsx:50-57 | each processed file is accepted or shows exactly one message |
| `BackgroundUpload.ProcessStep` | src/components/generation/background-upload.tsx:50-57 | one more file is appended if valid, otherwise its message is shown |
| `BackgroundUpload.SlotsBoundGrowth` | src/components/generation/background-upload.tsx:47-61 | starting with at most 7 files, adding keeps at most 7 |
| `BackgroundUpload.FullPickerTakesNothing` | src/components/generation/background-upload.tsx:47-48 | with 7 files nothing more is taken |
| `BackgroundUpload.PreviewMapEntries` | src/components/generation/background-upload.tsx:54 | each accepted file gets its object URL as preview, and nothing else gets an entry |
| `BackgroundUpload.PreviewMapSnoc` | src/components/generation/background-upload.tsx:54 | setting one more preview extends the map by that file |
| `BackgroundUpload.Without` | src/components/generation/background-upload.tsx:79-83 | keeps exactly the other files |
| `BackgroundUpload.WithoutAppend` | src/components/generation/background-upload.tsx:79-83 | filtering distributes over concatenation |
| `BackgroundUpload.WithoutMiddle` | src/components/generation/background-upload.tsx:79-83 | removing a file between two lists without it gives the two lists joined |
| `BackgroundUpload.RemoveExactlyThat` | src/components/generation/background-upload.tsx:79-83 | removing a file that occurs once takes out exactly its position, the others in order |
| `BackgroundUpload.WithoutKeepsAbsent` | src/components/generation/background-upload.tsx:79-83 | removing a file that is not listed changes nothing |
| `BackgroundUpload.Picker.AddFiles` | src/components/generation/background-upload.tsx:42-69 | only the first `7 - files.length` offered files are considered; the valid ones are appended in order with their previews; each invalid one shows its message; "Maximum 7" is shown iff more were offered than slots; at most 7 files; nothing changes when none is valid |
| `BackgroundUpload.Picker.Scan` | src/components/generation/background-upload.tsx:50-57 | the loop yields the accepted files, their previews and one message per rejected file |
| `BackgroundUpload.Picker.RemoveFile` | src/components/generation/background-upload.tsx:71-86 | the file and its preview are removed, the others kept in order; a non-empty preview URL is released |
| `BackgroundUpload.CanAddMoreTakesOne` | src/components/generation/background-upload.tsx:124 | while the add control is offered a single valid file is taken |
| `BackgroundUpload.Picker.CanAddMore` | src/components/generation/background-upload.tsx:124 | defines when the add control is offered: fewer than 7 files and not disabled |
| `GenerationForm.FirstActive` | src/components/generation/generation-form.tsx:42 | the first active portrait, or none when no portrait is active |
| `GenerationForm.InitialPortraitId` | src/components/generation/generation-form.tsx:42-45 | the first active portrait's id, else the first portrait's, else "" |
| `GenerationForm.InitialPortraitIsListed` | src/components/generation/generation-form.tsx:42-45 | the initial selection is "" or the id of a listed portrait, and non-empty when the first portrait has an id |
| `GenerationForm.AdminNeverExceeded` | src/components/generation/generation-form.tsx:47 | an administrator, or a missing quota, is never over quota |
| `GenerationForm.QuotaExceeded` | src/components/generation/generation-form.tsx:47 | defines over quota: not the administrator, a quota is known, and used ≥ limit |
| `GenerationForm.CanSubmit` | src/components/generation/generation-form.tsx:49-54 | defines when the form may submit: not pending, not over quota, some portrait, at least 3 trimmed keyword characters, a selected portrait |
| `GenerationForm.Form.CanSubmitNow` | src/components/generation/generation-form.tsx:49-54 | the submit rule read from the form's current fields |
| `GenerationForm.SubmittedInputPassesSchema` | src/components/generation/generation-form.tsx:49-112 | what the form lets through (with a UUID portrait, at most 500 trimmed characters and the server's upload paths) passes the server's schema |
| `GenerationForm.UploadedPaths` | src/components/generation/generation-form.tsx:97 | the paths of the signed URLs, in order |
| `GenerationForm.FirstFailure` | src/components/generation/generation-form.tsx:76-93 | the lowest index whose upload did not succeed (a response without `ok` or a rejected `fetch`), or none when all succeeded |
| `GenerationForm.UploadErrorMessage` | src/components/generation/generation-form.tsx:78-88 | the failed upload's error message: `Failed to upload {name}` for a response without `ok`, the runtime's message for a rejected `fetch` |
| `GenerationForm.Puts` | src/components/generation/generation-form.tsx:75-85 | file i is sent to URL i with its own content type |
| `GenerationForm.CreatedEvents` | src/components/generation/generation-form.tsx:110-112 | a truthy server error is shown; otherwise "Generation started!" and the started callback |
| `GenerationForm.Form.HandleSubmit` | src/components/generation/generation-form.tsx:56-114 | a no-op unless submittable; URLs are requested only with files; a URL error is shown; an upload failure creates nothing and shows `Failed to upload {name}` for a response without `ok`, or the rejected `fetch`'s own message; otherwise the generation is created with the trimmed keywords and the uploaded paths |
| `PortraitUpload.ValidateImage` | src/components/portraits/portrait-upload-dialog.tsx:58-70 | passes iff the type starts with "image/" and the size is at most 5 MiB; the type is checked first |
| `PortraitUpload.IsImageFile` | src/components/portraits/portrait-upload-dialog.tsx:58-70 | defines an acceptable portrait: an `image/` type and at most 5 MiB |
| `PortraitUpload.BackgroundRulesAreStricter` | src/components/onboarding/portrait-upload.tsx:24-36 | every acceptable background is an acceptable portrait |
| `PortraitUpload.FileExtension` | src/components/portraits/portrait-upload-dialog.tsx:86 | never empty and never contains a dot |
| `PortraitUpload.ExtensionOfDottedName` | src/components/portraits/portrait-upload-dialog.tsx:86 | `base.ext` gives `ext` lower-cased, or "jpg" when `ext` is empty |
| `PortraitUpload.ExtensionOfLastPart` | src/components/onboarding/portrait-upload.tsx:52 | the extension is the last dot-separated part, lower-cased, or "jpg" |
| `PortraitUpload.ExtensionOfUndottedName` | src/components/portraits/portrait-upload-dialog.tsx:86 | a name without a dot is its own extension (lower-cased), or "jpg" when empty |
| `PortraitUpload.StoragePathInUserFolder` | src/components/portraits/portrait-upload-dialog.tsx:87 | `{userId}/{uuid}.{ext}` lies in the user's folder and is non-empty |
| `PortraitUpload.StoragePath` | src/components/portraits/portrait-upload-dialog.tsx:87 | defines the object path `{userId}/{uuid}.{ext}` |
| `PortraitUpload.SentLabel` | src/components/portraits/portrait-upload-dialog.tsx:102 | an empty label is sent as undefined, any other as itself |
| `PortraitUpload.Finished` | src/components/portraits/portrait-upload-dialog.tsx:105-109 | success unless the server returned a truthy error |
| `PortraitUpload.Dialog.ResetForm` | src/components/portraits/portrait-upload-dialog.tsx:39-49 | clears preview, file and label, releasing a truthy preview URL |
| `PortraitUpload.Dialog.HandleOpenChange` | src/components/portraits/portrait-upload-dialog.tsx:51-56 | closing resets the form; opening changes nothing else |
| `PortraitUpload.Dialog.HandleFileSelect` | src/components/portraits/portrait-upload-dialog.tsx:72-78 | a valid file becomes the selection with its preview; an invalid one only shows its message |
| `PortraitUpload.Dialog.ClearPreview` | src/components/portraits/portrait-upload-dialog.tsx:150-159 | clears preview and file, releasing a truthy preview URL |
| `PortraitUpload.Dialog.HandleUpload` | src/components/portraits/portrait-upload-dialog.tsx:80-116 | no file: nothing; the file goes to `{userId}/{uuid}.{ext}`; an upload error shows the failure and never registers; otherwise the portrait is registered with its public URL and label, and success closes and resets the dialog |
| `PortraitUpload.OnboardingUpload.HandleFileSelect` | src/components/onboarding/portrait-upload.tsx:38-44 | as the dialog's selection rule |
| `PortraitUpload.OnboardingUpload.ClearPreview` | src/components/onboarding/portrait-upload.tsx:111-120 | clears preview and file, releasing a truthy preview URL |
| `PortraitUpload.OnboardingUpload.HandleUpload` | src/components/onboarding/portrait-upload.tsx:46-77 | no file: nothing; an upload error never calls `updateAvatarUrl`; otherwise the avatar URL is the public URL of `{userId}/{uuid}.{ext}` |
| `UserNav.FirstChars` | src/components/dashboard/user-nav.tsx:29-30 | each character is the first character of a non-empty part, and there are at most as many as parts |
| `UserNav.Words` | src/components/dashboard/user-nav.tsx:28-29 | the non-empty parts, in order: exactly the parts that are not empty, each non-empty |
| `UserNav.FirstCharsSnoc` | src/components/dashboard/user-nav.tsx:29-30 | a part added at the end contributes its first character, or nothing when empty |
| `UserNav.FirstCharsAreWordHeads` | src/components/dashboard/user-nav.tsx:29-30 | one character per word, character k being the first character of word k |
| `UserNav.NameInitials` | src/components/dashboard/user-nav.tsx:27-32 | for space-free parts, the cut, upper-cased letters are the first letters of the first two words and contain no space |
| `UserNav.Initials` | src/components/dashboard/user-nav.tsx:26-33 | from a truthy name: the upper-cased first characters of its first two non-empty space-separated words, in order (fewer when there are fewer words), never a space; otherwise the first two characters of the email upper-cased |
| `UserNav.TwoWords` | src/components/dashboard/user-nav.tsx:26-32 | two words give their first letters upper-cased |
| `UserNav.InitialsOfWords` | src/components/dashboard/user-nav.tsx:26-32 | any name of non-empty, space-free words joined by single spaces gives the upper-cased first letters of its first two words (one letter for one word) |
| `UserNav.WordsOfNonEmpty` | src/components/dashboard/user-nav.tsx:28-29 | when no part is empty, every part is a word |
| `UserNav.FirstCharsSkipsEmpty` | src/components/dashboard/user-nav.tsx:29-30 | an empty part contributes nothing |
| `UserNav.RepeatedSpacesIgnored` | src/components/dashboard/user-nav.tsx:28-30 | a run of spaces between words adds no initial |
| `GalleryList.ShortKeywords` | src/components/generation/gallery-list.tsx:57-59 | up to 50 characters unchanged; longer: the first 50 then "..." |
| `GalleryList.ShortKeywordsIdempotent` | src/components/generation/gallery-list.tsx:57-59 | shortening twice is shortening once |
| `GalleryList.Plural` | src/components/generation/gallery-list.tsx:62 | "s" unless the count is exactly 1 |
| `GalleryList.CountLine` | src/components/generation/gallery-list.tsx:62-65 | starts with `{n} thumbnail{s}`; no backgrounds: ends " from keywords only" |
| `GalleryList.CountLineNamesBackgrounds` | src/components/generation/gallery-list.tsx:63-64 | a positive background count is shown as "from N background(s)" with the same plural rule |
| `GalleryList.Badge` | src/components/generation/gallery-list.tsx:76-82 | completed → default, failed → destructive, anything else → secondary |
| `GalleryList.CardOf` | src/components/generation/gallery-list.tsx:46-82 | defines one card: link, short keywords, count line, badge and status |
| `GalleryList.Gallery` | src/components/generation/gallery-list.tsx:31-46 | the empty state iff no generations; otherwise one card per generation in order, linking to it, with its badge and short keywords |
| `ThumbnailGrid.IntToStringNoUnderscore` | src/components/generation/thumbnail-grid.tsx:59 | a rendered number has no '_' |
| `ThumbnailGrid.DownloadNameDeterminesIndexes` | src/components/generation/thumbnail-grid.tsx:59 | equal download names mean equal effective indexes |
| `ThumbnailGrid.UnderscoreSplit` | src/components/generation/thumbnail-grid.tsx:59 | `{p}_bg{b}.png` determines both numbers |
| `ThumbnailGrid.NullIndexIsZero` | src/components/generation/thumbnail-grid.tsx:59 | a missing index names the file as index 0 does |
| `ThumbnailGrid.OneBased` | src/components/generation/thumbnail-grid.tsx:59 | defines the shown index: `(index ?? 0) + 1` |
| `ThumbnailGrid.DownloadName` | src/components/generation/thumbnail-grid.tsx:59 | defines the download file name `thumbnail_{p}_bg{b}.png` from the one-based indexes |
| `ThumbnailGrid.TileOf` | src/components/generation/thumbnail-grid.tsx:36-72 | a failed tile iff status failed, showing `error_message \|\| "Generation failed"`; otherwise the image with its download name, prompt, and a "Background N" (1-based) label iff the background index is present |
| `ThumbnailGrid.Grid` | src/components/generation/thumbnail-grid.tsx:23-50 | the empty text iff no thumbnails; otherwise one tile per thumbnail in order |
| `Common.TrimIsSlice` | src/actions/settings.ts:21 | `trim` leaves the slice between the first and last non-whitespace characters, cutting only whitespace |
| `Common.TrimStart` | src/actions/settings.ts:21 | a suffix of the input, cut only of whitespace, not starting with whitespace |
| `Common.TrimEnd` | src/actions/settings.ts:21 | a prefix of the input, cut only of whitespace, not ending with whitespace |
| `Common.SplitJoin` | src/components/dashboard/user-nav.tsx:28 | splitting and joining on one separator gives the input back |
| `Common.JoinSplit` | src/components/dashboard/user-nav.tsx:28 | joining separator-free parts and splitting again gives the parts back |
| `Common.SplitLastPart` | src/components/portraits/portrait-upload-dialog.tsx:86 | the last part of a split is what follows the last separator |
| `Common.SliceTo` | src/components/generation/background-upload.tsx:48 | `slice(0, end)`: the prefix of length `end` clamped to the string, and for a negative end the string without its last `-end` characters (empty when that is more than its length) |
| `Common.Coalesce` | src/app/api/webhooks/n8n-callback/route.ts:143 | `x ?? d`: the value when present, the default when missing |
| `Common.OrElse` | src/components/generation/generation-form.tsx:44 | `x \|\| d`: the value when truthy (present and non-empty), the default otherwise |
| `Common.ToUpper` | src/components/dashboard/user-nav.tsx:31 | same length, each character upper-cased (ASCII letters) |
| `Common.ToLower` | src/components/portraits/portrait-upload-dialog.tsx:86 | same length, each character lower-cased (ASCII letters) |
| `Common.Split` | src/components/dashboard/user-nav.tsx:28 | at least one part, and no part contains the separator |
| `Common.SplitCount` | src/components/dashboard/user-nav.tsx:28 | one part more than there are separators |
| `Common.SplitFirstPart` | src/components/dashboard/user-nav.tsx:28 | a separator-free leading segment becomes the first part |
| `Common.SplitNoSep` | src/components/portraits/portrait-upload-dialog.tsx:86 | a string without the separator is its own single part |
| `Common.NatToString` | src/app/api/webhooks/n8n-callback/route.ts:265 | decimal digits only, one digit exactly below 10 |
| `Common.NatToStringInjective` | src/app/api/webhooks/n8n-callback/route.ts:195 | different naturals render as different text |
| `Common.IntToString` | src/app/api/webhooks/n8n-callback/route.ts:195 | the decimal rendering, with a leading '-' exactly for negatives |
| `Common.IntToStringInjective` | src/app/api/webhooks/n8n-callback/route.ts:195 | different numbers render as different text |

## Left out

- All I/O is reduced to parameters: the database client, storage, HTTP, the payment provider's SDK calls, redirects and cache revalidation.
- Cryptography is reduced to parameters: the HMAC-SHA256 digest is a function parameter, and the payment provider's signature check is its verified event or none.
- UUID and URL syntax checks are predicate parameters.
- The clock is an integer parameter. This covers the start of the month, the ISO rendering of provider times and `Date.now()`.
- Concurrency is not modelled: the count-then-insert race, duplicate callbacks, and the realtime channel's subscribe and unsubscribe.
- Rendering is not modelled: JSX, toasts as visuals, drag-and-drop, and presentational components. Toasts are kept as a list of messages.
- Floating-point usage percentages are not modelled.
- `src/actions/auth.ts` and `src/actions/onboarding.ts` are not part of this model: they are single calls to the auth provider.
- The middleware matcher pattern is not modelled: paths are assumed to have passed it.
- Case conversion covers ASCII letters only.
- Strings are sequences of code points, not of UTF-16 units. Only the signature's UTF-8 byte length is modelled.
- Generations.Admit: the monthly limit is a parameter, because the imported `FREE_TIER_MONTHLY_QUOTA` is not defined by the module it comes from.
- Generations.CreateGeneration: a thrown non-`Error` value is treated like an `Error`, and the generic message is returned either way.
- Generations.CreateGeneration: the status machine (pending → processing | failed → completed | failed | partial) is not enforced. The callback overwrites the status of whatever row it names, as the source does.
- Callback.HandleCallback: the body is taken to be a well-formed payload once it parses as JSON. The source casts it without checking its shape, so a body of JSON `null` throws when `generation_id` is read (a 500, not the modelled 400); a `thumbnails` value that is not an array throws inside the item loop; and a missing `prompt_index` or `background_index` puts "undefined" into the storage path. The model's items always carry integer indexes.
- StripeWebhook.HandleWebhook: the event is assumed to have the shape its kind promises, and a retrieved subscription's price to have its product expanded. These are the casts the source makes.
- BillingActions.CreateCheckoutSession: exceptions from the provider's customer and session calls are not modelled; only a missing or empty session URL is.
- BillingActions.ConfiguredPrice: `STRIPE_PRICES` is a plain object, so a plan id outside the parameter's type that names an inherited property ("constructor", "toString") finds a function and passes the price guard. The source then authenticates, may create a customer, and hands the function to the provider as the price. The model keeps to the declared `pro`/`agency` keys and reports every other id as unconfigured, so `CreateCheckoutSession` does the same for such ids.
- GenerationForm.Form.HandleSubmit: the model requires one signed URL per file, which the server guarantees. When several uploads fail, it reports the lowest failing index; the source reports whichever rejection `Promise.all` sees first. Exceptions thrown by server actions on the client are not modelled.
- BackgroundUpload.Picker.AddFiles: `URL.createObjectURL` is modelled as a function of the file, so repeated calls give the same URL.
- Generations.CreateBackgroundUploadUrls: the requested count is an integer, as the form's file count is. The source takes any number from the client: a fraction such as 2.5 passes the range check and signs 3 URLs, and `NaN` passes it and signs none.
- Common.IntToString: integers render in plain decimal at every size. JavaScript switches to exponent form from 1e21, which no index or count here reaches.
- Plans.PlanHasFeature: the key is one of the plan ids. An inherited property name such as `constructor` would make the source throw instead of answering false.
- BackgroundUpload.Accepted: its own contract bounds only the length. The membership and order facts are in `AcceptedMembers`, `AcceptedAppend` and `ProcessStep`.
