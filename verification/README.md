# America Vendas marketplace: a Dafny model of its payment and listing core

The marketplace lets a signed-in user publish a classified listing. The listing is
inserted already published and unpaid, and the user can then pay for a plan
through a hosted checkout or publish it for free. Checkout sessions are opened by
five server variants: Vercel, Netlify, Cloudflare Pages, the Express server and a
hosted edge function. The provider's webhook reconciles the `listings` and
`listing_payments` tables in four variants. Around them sit the browser pages that
create, edit, pay for, find and count listings, and the sign-in pages.

The model keeps the database as an immutable store (`Db.Store`):
- `listings` is a map keyed by the `id` column;
- `listing_payments` and `images` are sequences in insertion order;
- the local `users` mirror is a map.

Every handler is a pure function from the store and the request to the new store
and the response. Each awaited database call is an input of type `Call`:
- `Ok`: the write applied;
- `Failed`: an error object came back;
- `Threw`: an exception escaped.

The same goes for the provider (`Stripe.Provider`) and for signature verification
(`WebhookRequest.verified`). A handler also returns the session request it sent
to the provider (`sent`), so "no provider call" is `sent == None`. Money is a
`real`, and `Math.round` is floor of x + 0.5. Time is an integer number of
milliseconds: a day is 86 400 000 ms and a year is 365 days.

Modules follow the source files:

| module | file |
|---|---|
| `Db` | store.dfy |
| `Stripe` | stripe.dfy |
| `Http` | http.dfy |
| `Reconcile` | reconcile.dfy, the shared `handleWebhook` |
| `VercelWebhook`, `NetlifyWebhook`, `ExpressWebhook`, `SupabaseWebhook` | webhook_*.dfy |
| `Checkout` | checkout.dfy, the shared session-opening logic |
| `VercelCheckout`, `NetlifyCheckout`, `PagesCheckout`, `ServerCheckout`, `SupabaseCheckout` | session_*.dfy |
| `PaymentPage`, `PaymentSuccess`, `CreateListing`, `EditListing`, `ListingForm` | the listing pages |
| `SupabaseClient` | src/lib/supabase.ts |
| `Login`, `ForgotPassword` | the sign-in pages |
| `ImageUpload`, `ListingFilter`, `Search`, `ListingStatus`, `UserListings`, `AdminDashboard` | the listing views |

`Common` and `Text` hold shared helpers: `Option`, the JavaScript truthiness of an
optional string, decimal rendering, `trim`, ASCII lower-casing and `includes`.

## Model

| member | source | states |
|---|---|---|
| Db.InsertListing | src/lib/supabase.ts:170-184 | inserting under a fresh id adds exactly that key, stores the row, keeps every other row and table |
| Db.OwnedListing | src/pages/Payment.tsx:41-62 | the `.eq('id').eq('user_id')` lookup finds a row iff it exists and belongs to the signed-in user; with no user nothing matches |
| Db.SetPaymentStatus | api/webhook.ts:60-67 | every payment row of the session gets the new status, every other row is unchanged, the length is kept |
| Db.FreeCountAfterFreePublish | supabase/functions/create-payment-session/index.ts:40-53 | turning one of the user's listings into a published unpaid one raises that user's free count by exactly one and leaves every other user's count |
| Db.FreeCountAfterInsert | src/pages/CreateListing.tsx:102-120 | inserting a published unpaid listing raises its owner's free count by one |
| Db.FreeCountOthersAfterInsert | src/pages/CreateListing.tsx:102-120 | inserting a listing leaves every other user's free count unchanged |
| Stripe.AmountFromTotal | supabase/functions/stripe-webhook/index.ts:61-71 | the recorded amount is the total in currency units (amount·100 = total); zero when the total is missing or zero |
| Stripe.UnitAmount | api/create-payment-session.ts:38-60 | the unit amount in cents is within half a cent of price·100 |
| Reconcile.MarkPaid | api/webhook.ts:43-50 | a completed checkout sets `is_paid` on the metadata's listing only; a missing id or unknown listing changes nothing |
| Reconcile.HandleEvent | api/webhook.ts:40-77 | completed: the listing is marked paid and the session's rows `completed`; expired: the rows become `expired` and listings are untouched; other types change nothing; it throws iff an awaited write throws, keeping the earlier write |
| Reconcile.CompletedIdempotent | api/webhook.ts:40-77 | re-delivering a completed checkout changes nothing further |
| Reconcile.ExpiredAfterCompleted | api/webhook.ts:53-67 | an expiry after a completion leaves the rows `expired` while the listing stays paid |
| Reconcile.CompletedAfterExpired | api/webhook.ts:53-67 | a completion after an expiry wins: the rows end `completed` |
| VercelWebhook.Handler | api/webhook.ts:14-38 | non-POST is 405; a missing signature is 400; a failed verification is 400 with the store unchanged; 200 iff the reconciliation does not throw, and then the store is its result |
| VercelWebhook.RedeliveryIdempotent | api/webhook.ts:14-38 | delivering a completed checkout twice gives the same store and response as once |
| NetlifyWebhook.Handler | netlify/functions/webhook.ts:14-51 | as the Vercel handler, plus a body that is not JSON is rejected with 400 before verification |
| NetlifyWebhook.AgreesWithVercel | netlify/functions/webhook.ts:14-51 | with a parseable body, the Netlify and Vercel handlers give the same result |
| ExpressWebhook.WebhookHandler | src/server/api/webhook.ts:9-28 | no method check; missing signature is 400; 200 iff verified and the reconciliation does not throw |
| ExpressWebhook.PartialWriteOnThrow | src/server/stripe.ts:64-101 | if the payment-row write throws after the listing write, the response is 400 but the listing stays marked paid |
| SupabaseWebhook.PlanExpiry | supabase/functions/stripe-webhook/index.ts:35-40 | basic gives 30 days, premium one year, any other plan the current time |
| SupabaseWebhook.PublishPaid | supabase/functions/stripe-webhook/index.ts:43-53 | only a listing with that id and that owner changes, and only in its lifecycle columns: published, paid, expiry, `paid`, session id |
| SupabaseWebhook.CompletedRow | supabase/functions/stripe-webhook/index.ts:61-71 | the inserted row is `completed`, carries the plan, the session id, the amount from the total and the currency or `brl` |
| SupabaseWebhook.MarkFailed | supabase/functions/stripe-webhook/index.ts:75-91 | a failed payment sets that listing, filtered by id only, to `draft` / `failed` and changes nothing else |
| SupabaseWebhook.Completed | supabase/functions/stripe-webhook/index.ts:43-71 | an update error is 500 with nothing written; an exception is 400; on success the listing is published and the row appended only when its insert applies |
| SupabaseWebhook.Serve | supabase/functions/stripe-webhook/index.ts:10-104 | a missing signature or failed verification is 400 with the store unchanged; at most one payment row is appended, and only for a completed event with full metadata; missing metadata, expired and other events answer 200 and write nothing |
| SupabaseWebhook.RedeliveryDuplicatesPayment | supabase/functions/stripe-webhook/index.ts:43-71 | a second delivery of the same completion leaves listings as they were but appends a second identical payment row |
| SupabaseWebhook.BasicPlanThirtyDays | supabase/functions/stripe-webhook/index.ts:35-53 | a basic-plan completion for the owner's listing publishes it paid for exactly thirty days |
| Checkout.SuccessUrl | api/create-payment-session.ts:54-55 | the success url starts with the base url and ends with `?success=true` |
| Checkout.ReturnedListing | api/create-payment-session.ts:54-55 | the listing id read back from a url rebuilds that url |
| Checkout.ReturnedListingOfSuccessUrl | api/create-payment-session.ts:54-55 | the listing id is recovered from the success url built for it |
| Checkout.SuccessUrlInjective | api/create-payment-session.ts:54-55 | different listings get different success urls on one base |
| Checkout.ListingParams | api/create-payment-session.ts:38-60 | one ad-hoc item with the listing's title, description and price in cents; metadata holds the ids and no plan; the success url returns to that listing |
| Checkout.Open | api/create-payment-session.ts:27-71 | not found iff the lookup errs or no row has the id (owner ignored); the provider is called iff the listing was found; started iff found, created and the insert did not throw; a pending row is appended iff started with an applied insert |
| Checkout.Respond | api/create-payment-session.ts:20-77 | an unparsable body is 500; missing ids are 400; 404 leaves the store unchanged with no provider call; 200 iff a session started; a payments change is exactly the pending row |
| Checkout.OpenIgnoresOwner | api/create-payment-session.ts:27-35 | a caller gets a session for someone else's listing, with their own id in the metadata |
| VercelCheckout.Handler | api/create-payment-session.ts:14-77 | non-POST is 405 with no provider call; otherwise the shared checkout, with urls on `FRONTEND_URL` or the Vercel placeholder |
| NetlifyCheckout.ParsedBody | netlify/functions/create-payment-session.ts:23-30 | a missing body parses as an empty object |
| NetlifyCheckout.Handler | netlify/functions/create-payment-session.ts:14-92 | a missing body is 400 rather than 500; a body that is not JSON is 500; urls use the site `URL` or the Netlify placeholder |
| NetlifyCheckout.AgreesWithVercel | netlify/functions/create-payment-session.ts:14-92 | with a body present and the same base, Netlify answers as Vercel |
| PagesCheckout.OnRequestPost | functions/api/create-payment-session.ts:10-88 | no method check; a malformed body is 500; 200 only with a created session |
| PagesCheckout.AgreesWithVercel | functions/api/create-payment-session.ts:10-88 | with the same `FRONTEND_URL`, Pages answers a POST as Vercel does |
| ServerCheckout.CreatePaymentSession | src/server/stripe.ts:8-61 | a missing listing becomes an exception; the store and provider request are the shared ones |
| ServerCheckout.CreatePaymentSessionHandler | src/server/api/create-payment-session.ts:4-18 | every exception is 500; missing ids are 400; 200 only with a created session |
| ServerCheckout.AgreesWithVercel | src/server/api/create-payment-session.ts:4-18 | the Express path matches Vercel's store and provider request; Vercel's 404 becomes 500 |
| SupabaseCheckout.PriceFor | supabase/functions/create-payment-session/index.ts:85-91 | premium uses the premium price id, any other paid plan the basic one |
| SupabaseCheckout.PlanParams | supabase/functions/create-payment-session/index.ts:93-109 | a configured price, urls on the `origin` header ("null" when absent), metadata with the plan |
| SupabaseCheckout.Serve | supabase/functions/create-payment-session/index.ts:12-134 | never writes; OPTIONS is 200; missing fields 400; free plan answers 200 iff the free count is under five, and 400 with the quota text iff not; the provider is called iff a paid plan has a configured price; `PlanSession` only with a created session |
| SupabaseCheckout.PaidPlanIgnoresQuota | supabase/functions/create-payment-session/index.ts:52-65 | for a paid plan, the answer does not depend on the user's free count |
| PaymentPage.FetchListing | src/pages/Payment.tsx:32-62 | no user redirects to `/login`; the listing is shown iff the query succeeds and it has this id and owner; otherwise `/meus-anuncios` |
| PaymentPage.HandlePayment | src/pages/Payment.tsx:64-108 | no listing or user does nothing; the request carries the listing, user, 990 cents and the price id; checkout iff an ok answer and a clean redirect |
| PaymentPage.ChargedFromStoredPrice | src/pages/Payment.tsx:76-82 | the amount the page posts is ignored; the session is priced from the stored listing |
| PaymentPage.SkipPayment | src/pages/Payment.tsx:113-140 | id-only update: published, unpaid, one day from now, content kept; navigates iff the update applied |
| PaymentPage.SkipRaisesFreeCount | src/pages/Payment.tsx:113-140 | skipping payment adds one to the owner's free count with no quota check |
| PaymentSuccess.DetailsOf | src/pages/PaymentSuccess.tsx:44-49 | plan falls back to `unknown`, status to `completed` |
| PaymentSuccess.VerifyPayment | src/pages/PaymentSuccess.tsx:24-56 | details are shown iff a session id is given, the query succeeds and exactly one listing carries that payment session id, and then they are that listing's |
| PaymentSuccess.NameAndDurationAgree | src/pages/PaymentSuccess.tsx:61-77 | a plan has a specific name iff it has a duration label |
| PaymentSuccess.PaidDurationMatchesExpiry | src/pages/PaymentSuccess.tsx:70-77 | the basic and premium duration labels match the expiry the hosted webhook grants |
| ListingForm.SelectFiles | src/pages/CreateListing.tsx:40-47 | a choice of more than five files is refused and the previous one kept |
| ListingForm.StoragePath | src/pages/CreateListing.tsx:56-57 | the path starts with `user/listing/` and continues with `time-index.ext` |
| ListingForm.StoragePathDeterminesIndex | src/pages/CreateListing.tsx:56-57 | equal paths in one folder have equal time and file index, so two files of one upload never collide |
| ListingForm.UploadImages | src/pages/CreateListing.tsx:49-87 | one path per file with its index; the urls are those of the successful uploads, in order |
| ListingForm.SuccessesSnoc | src/pages/CreateListing.tsx:49-87 | one more file adds its url exactly when its upload succeeded |
| ListingForm.SuccessesAllOk | src/pages/CreateListing.tsx:49-87 | when every upload succeeds, every file gets its url, in order |
| ListingForm.CreateStricterThanEdit | src/pages/EditListing.tsx:252-312 | what the create form accepts the edit form accepts; edit alone allows an empty city or state |
| ListingForm.ZeroPriceAccepted | src/pages/CreateListing.tsx:279-282 | a zero price passes both forms |
| ListingForm.OptionalField | src/pages/CreateListing.tsx:125-147 | a field that is blank after trimming is omitted; otherwise it is stored trimmed |
| ListingForm.OptionalFieldStable | src/pages/CreateListing.tsx:125-147 | re-submitting a stored optional value keeps it |
| CreateListing.MirrorRow | src/pages/CreateListing.tsx:102-112 | the mirrored user row defaults to an empty email, `Usuário` and an empty phone |
| CreateListing.NewRecord | src/pages/CreateListing.tsx:150-174 | trimmed title and description; published, unpaid, no images, 30 days from now; optional fields by the blank rule |
| CreateListing.EnsureUser | src/pages/CreateListing.tsx:102-120 | an existing user row is kept; a missing one is inserted, and a failed insert stops the submission |
| CreateListing.OnSubmit | src/pages/CreateListing.tsx:89-205 | navigates to `/payment/id` iff the user step and the insert succeed and the image update does not throw; earlier rows unchanged; images are the successful urls when the update applied |
| CreateListing.CreateCountsTowardQuota | src/pages/CreateListing.tsx:150-174 | a new listing already counts against the owner's free quota |
| EditListing.MergeImages | src/pages/EditListing.tsx:164 | the existing images are a preserved prefix, followed by the new urls |
| EditListing.Kept | src/pages/EditListing.tsx:167-182 | a blank optional field leaves the stored value; otherwise the trimmed value replaces it |
| EditListing.ApplyEdit | src/pages/EditListing.tsx:167-182 | content columns from the form, lifecycle columns unchanged, `updated_at` set |
| EditListing.OnSubmit | src/pages/EditListing.tsx:151-196 | update filtered by id and owner: only that listing changes; navigates iff the update reported no error, even when no row matched |
| EditListing.EditKeepsFreeCount | src/pages/EditListing.tsx:167-189 | editing never changes any user's free count |
| SupabaseClient.HandleSupabaseError | src/lib/supabase.ts:38-50 | the message, else the description, else a fixed text; never empty |
| SupabaseClient.CreateListing | src/lib/supabase.ts:170-184 | returns the row iff the insert applied; on error the store is unchanged and the error text returned |
| SupabaseClient.ImagePath | src/lib/supabase.ts:191 | the path is the listing's folder, then the upload time in decimal and a dash, then the file name |
| SupabaseClient.ImagePathDeterminesTimeAndName | src/lib/supabase.ts:190-191 | within one folder two paths are equal iff time and name are, so same-name files uploaded in one millisecond collide |
| SupabaseClient.UploadListingImages | src/lib/supabase.ts:186-218 | succeeds iff no upload aborts, and then returns one url per image in order |
| SupabaseClient.RowsStopAtAbort | src/lib/supabase.ts:190-217 | an abort at step k ends the writing: the rows are those of the steps before k |
| SupabaseClient.RowsFromOkInserts | src/lib/supabase.ts:190-209 | every row written comes from a step reached without an abort whose insert applied, carrying that step's url |
| SupabaseClient.StoreAfterUpload | src/lib/supabase.ts:186-218 | only `images` changes, by appending; after an abort at step k it holds exactly the rows of the steps before k |
| SupabaseClient.RowsMatchUrls | src/lib/supabase.ts:196-209 | with every step succeeding, each returned url has exactly one images row, in order |
| SupabaseClient.UpdateListingPaymentStatus | src/lib/supabase.ts:220-233 | only `is_paid` of that listing changes; an error leaves the store and returns its text |
| SupabaseClient.MarkPaidAgreesWithWebhook | src/lib/supabase.ts:220-233 | marking paid here equals the webhook's listing write |
| Login.ValidEmail | src/pages/Login.tsx:135-141 | an accepted email matches the pattern |
| Login.ValidEmailExact | src/pages/Login.tsx:135-141 | the executable check accepts exactly the strings the pattern describes |
| Login.EmailSubmits | src/pages/Login.tsx:121-141 | `onSubmit` runs iff the email passes the browser's `type="email"` check and the pattern |
| Login.HtmlDomainNoEmptyLabel | src/pages/Login.tsx:133 | a domain the browser accepts is non-empty, has no leading or trailing dot, and no two dots in a row |
| Login.DoubleDotRefused | src/pages/Login.tsx:133 | two dots in a row make the browser refuse the domain |
| Login.TwoLabelDomain | src/pages/Login.tsx:133 | two valid labels joined by a dot form a domain the browser accepts |
| Login.BrowserAcceptsParts | src/pages/Login.tsx:133 | a non-empty local part and an accepted domain joined by `@` pass the browser's check |
| Login.BrowserBlocksDoubleDot | src/pages/Login.tsx:121-141 | `a@b..cc` matches the pattern but the browser stops the submit |
| Login.PlainAddressSubmits | src/pages/Login.tsx:121-141 | `ana@site.com` passes both checks |
| Login.OneAt | src/pages/Login.tsx:135-141 | an accepted email has exactly one `@` |
| Login.Utf16LengthBounds | src/pages/Login.tsx:164-169 | the JavaScript length lies between the character count and twice it |
| Login.PasswordLengthByCharacters | src/pages/Login.tsx:164-169 | six characters always satisfy the rule, fewer than three never do |
| Login.FirstAnswer | src/pages/Login.tsx:46-68 | the first answered attempt, or none iff every attempt raised |
| Login.SignInWithRetry | src/pages/Login.tsx:46-68 | at most two calls; the first answer, even an error, stops retrying; none only when both raised |
| Login.Outcome | src/pages/Login.tsx:70-92 | a failed connection or a rethrown exception sets the generic error; an auth error sets its message or the default; navigation iff no error and a user, to `from` or `/` |
| Login.OnSubmit | src/pages/Login.tsx:28-96 | given the connection test's answer: a failed test makes no sign-in call; navigation iff the first answer has a user and no error |
| Login.OnSubmitAsWritten | src/pages/Login.tsx:5-36 | when the module lacks the imported connection test, the page ends in the generic error; it navigates only when the test exists and succeeds |
| Login.MissingExportBlocksLogin | src/pages/Login.tsx:5-36 | with the module's real exports, a successful first sign-in still ends in the generic error, where a succeeding test would navigate |
| ForgotPassword.Submit | src/pages/ForgotPassword.tsx:22-42 | an email that passes both the browser's check and the pattern always reaches the success screen with loading cleared; any other changes nothing |
| ForgotPassword.BrowserRefusalKeepsForm | src/pages/ForgotPassword.tsx:107-127 | `a@b..cc` matches the pattern, yet the browser stops the submit and the form stays as it was |
| ForgotPassword.TryAgainAfterSubmit | src/pages/ForgotPassword.tsx:74 | after success, "Tentar novamente" returns to the initial form |
| ForgotPassword.SubmitAfterTryAgain | src/pages/ForgotPassword.tsx:107-127 | from the form, an email matching the sign-in pattern that the browser also accepts reaches success again |
| ImageUpload.OnDrop | src/components/listing/ImageUpload.tsx:30-35 | the result is the concatenation truncated to `maxFiles`; the current list is a prefix when within the limit |
| ImageUpload.RemoveAt | src/components/listing/ImageUpload.tsx:37-42 | removes exactly element i, keeps the others in order, one shorter |
| ImageUpload.Drop | src/components/listing/ImageUpload.tsx:30-35 | the new state and the list reported to the parent are the same |
| ImageUpload.RemoveFile | src/components/listing/ImageUpload.tsx:37-42 | the new state and the reported list are the same, one file fewer |
| ImageUpload.DropLimit | src/components/listing/ImageUpload.tsx:55-56 | the limit is positive iff the drop zone is enabled |
| ImageUpload.DropWithinLimitKeepsAll | src/components/listing/ImageUpload.tsx:30-35 | a drop within the limit keeps every file |
| ImageUpload.RemoveUndoesDrop | src/components/listing/ImageUpload.tsx:30-42 | removing the file just dropped restores the list |
| ImageUpload.DropStaysWithinLimit | src/components/listing/ImageUpload.tsx:30-35 | any sequence of drops keeps the list within the limit |
| ListingFilter.Set | src/components/listing/ListingFilter.tsx:27-31 | only the named key changes |
| ListingFilter.HandleFilterChange | src/components/listing/ListingFilter.tsx:27-31 | only the key changes and the new state is reported |
| ListingFilter.HandleClearFilters | src/components/listing/ListingFilter.tsx:33-43 | resets to the default and calls the clear callback, not the change one |
| ListingFilter.HasActiveFiltersByKey | src/components/listing/ListingFilter.tsx:45 | active iff some field is neither empty nor `newest` |
| ListingFilter.ClearedIsInactive | src/components/listing/ListingFilter.tsx:19-45 | after clearing, no filter is active |
| ListingFilter.ChangeThenClear | src/components/listing/ListingFilter.tsx:27-45 | setting an active value makes the panel active; clearing undoes any change |
| ListingFilter.QuickRangeAsWritten | src/components/listing/ListingFilter.tsx:194-198 | after a quick-range click only `maxPrice` differs from before, and two states are reported |
| ListingFilter.QuickRangeLosesMinimum | src/components/listing/ListingFilter.tsx:194-198 | the lowest range on a fresh panel leaves `minPrice` empty |
| ListingFilter.QuickRange | src/components/listing/ListingFilter.tsx:194-198 | the corrected button sets both bounds and reports once |
| ListingFilter.QuickRangeIsSequential | src/components/listing/ListingFilter.tsx:27-31 | the corrected button equals two changes applied in turn |
| Search.FilterListings | src/pages/Search.tsx:49-54 | exactly the matching listings are kept |
| Search.FilterAppend | src/pages/Search.tsx:49-54 | filtering distributes over concatenation, so the original order is kept |
| Search.FilterIdempotent | src/pages/Search.tsx:49-54 | filtering the results again changes nothing |
| Search.EmptySearchShowsAll | src/pages/Search.tsx:50-52 | an empty term with no category shows everything |
| Search.TermCaseIgnored | src/pages/Search.tsx:50-51 | a term and its lower-cased form match the same listings |
| Search.CountLabelPlural | src/pages/Search.tsx:142 | the label ends in the plural suffix iff the count is not one |
| ListingStatus.Label | src/pages/UserListings.tsx:83-90 | the label is the default iff the status is not a known one |
| ListingStatus.Color | src/pages/UserListings.tsx:74-81 | the colour is gray iff the status is not a known one |
| ListingStatus.LabelAndColorAgree | src/pages/AdminDashboard.tsx:88-104 | label and colour default together; known statuses get distinct labels and colours |
| ListingStatus.CountStatusAppend | src/pages/UserListings.tsx:150 | per-status counts add up over concatenation |
| ListingStatus.CountsDisjoint | src/pages/AdminDashboard.tsx:77-78 | two different statuses never count more rows than there are |
| UserListings.DeleteListing | src/pages/UserListings.tsx:92-96 | cancelled: nothing changes; confirmed: every row with the id goes and every other row stays |
| UserListings.WithoutIdAppend | src/pages/UserListings.tsx:92-96 | deletion keeps the remaining rows in order |
| UserListings.DeleteIdempotent | src/pages/UserListings.tsx:92-96 | deleting the same id twice equals deleting it once |
| UserListings.DeleteLowersCounts | src/pages/UserListings.tsx:92-166 | deletion never raises a status count and leaves it when no row had the id |
| UserListings.PageCounters | src/pages/UserListings.tsx:150-166 | the active and pending counters are the per-status counts |
| AdminDashboard.RevenueIsFivePerActive | src/pages/AdminDashboard.tsx:79 | the revenue fold adds 5 per active listing and nothing else |
| AdminDashboard.ComputeStats | src/pages/AdminDashboard.tsx:75-80 | total is the list length, active and pending are the per-status counts, revenue is 5 × active |
| AdminDashboard.RevenueAppend | src/pages/AdminDashboard.tsx:79 | revenue adds up over concatenation |

## Left out

- Provider and database client internals. Signature checking, session creation, storage upload and `getPublicUrl` are outcomes passed in. Queries are lookups in the in-memory store.
- Floating point. Prices and amounts are exact reals. `toFixed` and `toLocaleString` formatting and the upload-progress percentage are not modelled.
- Calendar arithmetic. `setDate` and `setFullYear` are fixed-length days and 365-day years, with no daylight saving time or leap years.
- Unicode case mapping. `toLowerCase` lowers ASCII letters only.
- Concurrency. Handlers apply one after another; concurrent deliveries and races between writes are not modelled.
- React mechanics. Rendering, toasts, loading and saving flags (except the recovery page's), sleeps between retries and preview urls are not modelled. Navigation is recorded as an outcome.
- The three `handleWebhook` functions (api/webhook.ts:40-77, netlify/functions/webhook.ts:53-90, src/server/stripe.ts:64-101) have the same body. They are one function, `Reconcile.HandleEvent`; each caller is still its own handler module.
- The Vercel, Netlify and Pages checkouts share one lookup-session-insert sequence (`Checkout.Open`), and `createPaymentSession` in src/server/stripe.ts wraps it. Their differences are modelled in each wrapper: method check, body parsing, default base url, and 404 against exception.
- Edit-page loading (src/pages/EditListing.tsx:58-100) runs the same owner-filtered query and redirects as the payment page, so `PaymentPage.FetchListing` models both. The edit page's five-file cap is `ListingForm.SelectFiles`.
- CreateListing.OnSubmit, EditListing.OnSubmit: the form's rules are a precondition, because the form library never calls `onSubmit` with data that fails them.
- CreateListing.OnSubmit: the database-assigned id is an input, and an insert under an id already in use counts as a failed insert.
- CreateListing.OnSubmit: the `images` table rows are not written on this path; only the listing's `images` column is.
- SupabaseWebhook.Serve: a thrown insert is answered 400, but the published listing is kept, as in the source. The model does not separate which exception message is sent.
- SupabaseCheckout.Serve, Login.OnSubmit: exception message texts built from `err.message` are one `Failure` body or the fixed root error.
- ImageUpload.OnDrop: `maxFiles` is a natural number; a negative or fractional prop is not modelled.
- Login.OnSubmit: `connected` stands for the answer of `testSupabaseConnection`, a function src/lib/supabase.ts does not define; the page as written is `Login.OnSubmitAsWritten` (see Findings).
- Login.EmailSubmits, ForgotPassword.Submit: the browser's check follows the grammar of the HTML standard over ASCII; the conversion of non-ASCII domains to their ASCII form and the trimming of surrounding whitespace the browser applies to the field's value are not modelled.
- Login.ValidEmail: the pattern is checked over ASCII; the `i` flag's behaviour on non-ASCII letters is not modelled, since without the `u` flag no non-ASCII character folds to an ASCII one.
- PaymentSuccess.PlanName, PaymentSuccess.PlanDuration: the labels are stated by value; what they promise is in `NameAndDurationAgree` and `PaidDurationMatchesExpiry`.
- SupabaseClient.ConfigLoads: the module's import-time guard is a predicate only, with no partner property.

## Findings

| source | as written | input that shows it | evidently intended | confidence | as-written member | corrected member |
|---|---|---|---|---|---|---|
| src/components/listing/ListingFilter.tsx:194-198 | each quick price-range button calls `handleFilterChange` twice, and both calls spread the same `filters` captured at render, so the second report and the final state lose the minimum | a fresh panel, button "Até R$ 50k" (`minPrice` '0', `maxPrice` '50000'): the final filters have `minPrice` '' | the click sets both `minPrice` and `maxPrice` | high, not executed | ListingFilter.QuickRangeAsWritten, ListingFilter.QuickRangeLosesMinimum | ListingFilter.QuickRange, ListingFilter.QuickRangeIsSequential |
| src/pages/Login.tsx:5-36 | the page imports `testSupabaseConnection` from src/lib/supabase.ts, which does not export it, and awaits it before signing in; the call cannot succeed (the import fails to link, or the call throws into the generic catch) | any email and password, with the first sign-in returning a user and no error: in a build where the missing named import becomes `undefined` (CommonJS interop), the page shows 'Erro ao fazer login. Tente novamente.' instead of navigating; under native ES modules (the development server) the import is a link-time SyntaxError and a production bundle fails to build, so no page renders at all | the connection test exists, and a connected page signs in and navigates | high, not executed | Login.OnSubmitAsWritten, Login.MissingExportBlocksLogin | Login.OnSubmit |
