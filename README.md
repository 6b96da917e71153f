# facebook-ads — a Dafny model of its core

The repository is a Next.js front end and a set of API routes. Shoppers fill
an order form. The form is written to load and save the shopper's order in an
in-memory order store, but the shop page never hands it the shopper's user
id, so as shipped it does neither (see Findings). An ads manager lists,
creates and pauses campaigns, ad sets, creatives and ads through the Facebook
Graph API. A messaging webhook checks signed deliveries. This project models
the logic of those pieces and proves what they promise:

- **Order store** (`orders.dfy`): the process-wide `Map` behind `/api/orders`.
  It is a class with the map and its key order. POST merges a body into the
  record, GET reads one record or all of them, and DELETE removes one.
- **Webhook** (`webhook.dfy`): the `hub.*` subscription handshake, the
  OR-accumulating constant-time comparison, `verifySignature`, and the outcome
  of a delivery.
- **Graph routes** (`json.dfy`, `graph.dfy`, `adsets_route.dfy`,
  `campaigns_route.dfy`, `ads_route.dfy`, `adcreatives_route.dfy`). Each
  handler is a function from the parsed payload to a plan. The plan either
  answers at once (400 or 500) or sends a request to the Graph API. The route
  then relays whatever comes back. The JavaScript operations on payloads are
  modelled exactly: truthiness, `||`, `??`, `${undefined}`, and `String(v)`
  on integers up to 2^53 in magnitude.
- **Ads dashboard** (`campaigns_table.dfy`, `facebook_ads.dfy`):
  - grouping ad sets under their campaigns into table rows;
  - the optimistic ACTIVE/PAUSED toggle and its rollback;
  - the bounded, newest-first activity log.
- **Shop pages**:
  - `products_grid.dfy`: the search and category filter;
  - `products_page.dfy`: add-to-cart;
  - `order_form.dfy`: merging a fetched order into the form, field edits, and
    what submitting does;
  - `create_ad_set.dfy`: the country toggle, the preselected campaign, and
    what submitting sends.

HMAC-SHA256, UTF-8 encoding, `JSON.parse`, `toISOString` and the clock are
library calls or I/O, so they are parameters: `hmacHex`, `utf8`, `parses`,
`iso` and `now`. Every property holds whatever they compute. A Graph API reply
is an input value, `Upstream`: either a status, a body and a content type, or
a thrown error.

The model follows the code as written. In particular:

- There is no conversation handler, no language extraction and no order-id
  generation. The webhook POST only acknowledges.
- The order POST ignores the `status` and `orderId` it may be sent
  (`Orders.MergeIgnoresStatusAndOrderId`).
- The order form reads `data.orderId` from the POST reply. The store never
  returns one, so that branch never fires.
- The country selection on the ad set page never reaches the request
  (`CreateAdSetPage.SubmittedAdSetTargetsDefault`).

## Model

| member | source | states |
|---|---|---|
| Orders.Merged | app/api/orders/route.ts:17-26 | the stored user id is the posting user; per field, a truthy incoming name/email/phone/address wins and an empty or missing one keeps the stored value (undefined without a stored record), so a non-empty stored value is never cleared; `updatedAt` is the supplied timestamp, else now |
| Orders.MergeLastWriteWins | app/api/orders/route.ts:17-28 | two POSTs for one user leave the record that one POST of the field-wise overlay (later truthy value, else earlier) leaves |
| Orders.MergeIdempotent | app/api/orders/route.ts:17-28 | posting the same body twice at the same time stores the same record as posting it once |
| Orders.MergeIgnoresStatusAndOrderId | app/api/orders/route.ts:10 | the body's `status` and `orderId` have no effect on the stored record |
| Orders.MergedNeverStoresEmpty | app/api/orders/route.ts:17-26 | a merge never stores "": from a record whose contact fields are undefined or non-empty, every field of the new record is undefined or non-empty |
| Orders.OrderStore.constructor | app/api/orders/route.ts:5 | the store starts empty and well-formed |
| Orders.OrderStore.Values | app/api/orders/route.ts:46 | all stored records, one per key, in insertion order |
| Orders.OrderStore.Post | app/api/orders/route.ts:7-37 | an unparsable body gives 500; a missing or empty `userId` gives 400 and leaves the store unchanged; otherwise only that user's entry changes, to the merge of the old record and the body, and a new key goes last |
| Orders.OrderStore.Get | app/api/orders/route.ts:39-62 | without `userId`, every stored record in key order; with one, that record, or 404 "Order not found" |
| Orders.OrderStore.Delete | app/api/orders/route.ts:64-80 | without `userId`, 400 and nothing changes; otherwise success, with exactly that key removed, whether or not it was present |
| Orders.PostThenGet | app/api/orders/route.ts:28-57 | a GET after a POST for the same user returns exactly the merged record the POST stored |
| Orders.DeleteTwice | app/api/orders/route.ts:69-75 | DELETE is idempotent: a second DELETE also succeeds and leaves the store as the first did |
| Webhook.Handshake | app/api/facebook/webhook/route.ts:8-23 | 500 without a configured token; otherwise the challenge with 200 exactly when mode is `subscribe`, the token matches and the challenge is non-empty; 403 in every other case |
| Webhook.TimingSafeEqual | app/api/facebook/webhook/route.ts:25-30 | false when the lengths differ; for equal lengths true iff every byte pair is equal; overall true iff the two byte strings are equal, hence reflexive and symmetric |
| Webhook.XorOrZero | app/api/facebook/webhook/route.ts:28 | the OR-accumulated XOR stays zero iff it was zero and the new pair is equal |
| Webhook.ExpectedSignature | app/api/facebook/webhook/route.ts:36-38 | the expected header is `sha256=` followed by the hex HMAC of the raw body under the secret |
| Webhook.VerifySignature | app/api/facebook/webhook/route.ts:32-44 | false without a secret, without a header (read as ""), or without the `sha256=` prefix; otherwise true iff the header's bytes equal the expected signature's |
| Webhook.Deliver | app/api/facebook/webhook/route.ts:46-64 | 401 "Invalid signature" iff the signature fails, decided before parsing; otherwise `{received: true}` iff the body parses, whatever its `object`; else 500 with the parse message or "Webhook error" |
| Graph.Failure | app/api/facebook/adsets/route.ts:24 | a thrown error gives 500 with its message, "Unknown error" when that is empty |
| Graph.Relay | app/api/facebook/adsets/route.ts:20-25 | for any status but the null-body ones the upstream status and body pass through unchanged, with upstream's content type, else `application/json`; a 204, 205 or 304 reply makes the `Response` constructor throw, so the route answers 500; a thrown fetch gives 500; the answer is always upstream's status or 500 |
| Graph.AnswerIgnoresUpstream | app/api/facebook/adsets/route.ts:20-25 | a plan that answers at once gives the same response whatever the upstream would have done |
| Graph.PatchStatus | app/api/facebook/adsets/route.ts:62-82 | unparsable gives 500; 400 "id and status are required" unless both are truthy; otherwise a POST with no query string of `{status}` alone to the URL of `String(id)` with the token |
| Graph.StatusToggleAccepted | app/api/facebook/campaigns/route.ts:61-76 | the `{id, status}` a table toggle sends, with a non-empty id and ACTIVE or PAUSED, always passes validation and posts exactly that status |
| AdSetsRoute.GetRequest | app/api/facebook/adsets/route.ts:9-18 | GET lists `<campaignId>/adsets` when a campaign is given, else `<account>/adsets`; fields default to `id,name,status,campaign_id` and limit to `50` |
| AdSetsRoute.PostPlan | app/api/facebook/adsets/route.ts:28-60 | unparsable gives 500; without a truthy `campaignId` 400 "campaignId is required" and no call; otherwise one POST to the account's ad sets with the defaulted body |
| AdSetsRoute.DefaultAmountsAsText | app/api/facebook/adsets/route.ts:45-46 | the default bid and budget are sent as the strings "100" and "1000" |
| AdSetsRoute.CreateAmounts | app/api/facebook/adsets/route.ts:45-46 | bid and budget fall back on 100 and 1000 only when missing or null; a given amount, 0 included, is sent as its `String(v)` form; both are always strings |
| AdSetsRoute.CreateDefaults | app/api/facebook/adsets/route.ts:42-44 | name defaults to "Test Ad Set" on any falsy value, else is the given one; REACH and IMPRESSIONS always; the campaign is the one asked for |
| AdSetsRoute.CreateTargetingAndSchedule | app/api/facebook/adsets/route.ts:47-50 | targeting defaults to the United States, start to now and end to now plus seven days, each on a falsy value; a truthy given value is forwarded unchanged |
| AdSetsRoute.RejectedPostMakesNoCall | app/api/facebook/adsets/route.ts:32-34 | without a campaign the response is 400 whatever the upstream would have said |
| CampaignsRoute.GetRequest | app/api/facebook/campaigns/route.ts:12-29 | GET lists the account's campaigns; fields default to `id,name,status,objective` and limit to `50` |
| CampaignsRoute.PostPlan | app/api/facebook/campaigns/route.ts:31-59 | unparsable gives 500; without a truthy `name` 400 "name is required" and no call; otherwise one POST with the fixed body |
| CampaignsRoute.NewCampaignsStartPaused | app/api/facebook/campaigns/route.ts:44-50 | a created campaign is PAUSED, OUTCOME_TRAFFIC, with special_ad_categories NONE and budget sharing off, under the given name |
| AdsRoute.PostPlan | app/api/facebook/ads/route.ts:7-34 | 400 "adset_id and creative.creative_id are required" unless both are truthy; otherwise one POST to the account's ads |
| AdsRoute.CreateForwardsAdSetAndCreative | app/api/facebook/ads/route.ts:20-25 | `adset_id` and `creative` are forwarded unchanged; name defaults to "Test Ad" and status to PAUSED when falsy |
| AdsRoute.CreativeMustBeAnObject | app/api/facebook/ads/route.ts:11-13 | a creative that is not an object, or whose `creative_id` is empty, is rejected |
| AdCreativesRoute.PageOf | app/api/facebook/adcreatives/route.ts:21 | the payload's `pageId` when truthy, else the configured page; undefined only when neither exists |
| AdCreativesRoute.PostPlan | app/api/facebook/adcreatives/route.ts:8-36 | nothing is validated: every parsed payload is forwarded to the account's creatives |
| AdCreativesRoute.EmptyPayloadDefaults | app/api/facebook/adcreatives/route.ts:18-27 | an empty payload gives name "Creative", link `https://example.com`, message "Check out our example!" and the configured page; `page_id` is omitted when no page is configured |
| AdCreativesRoute.PayloadPageWins | app/api/facebook/adcreatives/route.ts:21 | a truthy `pageId` in the payload wins over the configured page |
| CampaignsTable.GroupRows | src/components/ads/CampaignsAdSetsTable.tsx:64-71 | a campaign without ad sets gives one row with no ad set; with k ad sets, k rows in their order, the campaign on the first only |
| CampaignsTable.GroupByCampaign | src/components/ads/CampaignsAdSetsTable.tsx:58-62 | the dictionary maps each campaign id to its ad sets in input order; absent ids have none |
| CampaignsTable.PushAdSetRows | src/components/ads/CampaignsAdSetsTable.tsx:68-70 | the pushes append exactly that campaign's group of rows |
| CampaignsTable.BuildRows | src/components/ads/CampaignsAdSetsTable.tsx:55-74 | the rows are the campaigns' groups in campaign order; no campaigns, no rows |
| CampaignsTable.AdSetsOfMembers | src/components/ads/CampaignsAdSetsTable.tsx:58-64 | an ad set is grouped under a campaign iff it is an input ad set naming that campaign |
| CampaignsTable.AdSetsOfInOrder | src/components/ads/CampaignsAdSetsTable.tsx:58-62 | within a campaign, ad sets keep their input order |
| CampaignsTable.RowsOnlyMatchedAdSets | src/components/ads/CampaignsAdSetsTable.tsx:63-64 | every ad set shown belongs to a listed campaign; those of unknown campaigns appear in no row |
| CampaignsTable.RowsIncludeMatchedAdSets | src/components/ads/CampaignsAdSetsTable.tsx:63-70 | every ad set of a listed campaign appears in some row |
| CampaignsTable.RowsShowEveryCampaign | src/components/ads/CampaignsAdSetsTable.tsx:63-71 | every campaign heads a row, and only input campaigns are shown |
| CampaignsTable.WithCampaignStatus | src/components/ads/CampaignsAdSetsTable.tsx:154 | the status update keeps every row's id and name and the row count |
| CampaignsTable.ToggleCampaignEffect | src/components/ads/CampaignsAdSetsTable.tsx:152-154 | the rows with the clicked id become ACTIVE when checked, else PAUSED; every other row is unchanged |
| CampaignsTable.CampaignRollbackRestores | src/components/ads/CampaignsAdSetsTable.tsx:153-158 | with unique ids, the update followed by the rollback to the old status gives back the rows exactly |
| CampaignsTable.WithAdSetStatus | src/components/ads/CampaignsAdSetsTable.tsx:190 | the status update keeps every ad set's id, name and campaign and the row count |
| CampaignsTable.ToggleAdSetEffect | src/components/ads/CampaignsAdSetsTable.tsx:188-190 | the clicked ad set becomes ACTIVE or PAUSED; every other row is unchanged |
| CampaignsTable.AdSetRollbackRestores | src/components/ads/CampaignsAdSetsTable.tsx:189-194 | with unique ids, update then rollback gives back the ad sets exactly |
| FacebookAds.Prepended | src/components/ads/facebookAds.tsx:48 | the new entry comes first; at most 20 entries; the survivors are the newest old entries in their old order |
| FacebookAds.PrependedNewestFirst | src/components/ads/facebookAds.tsx:43-48 | prepending an id larger than every id keeps ids strictly decreasing, so distinct |
| FacebookAds.ActivityLog.constructor | src/components/ads/facebookAds.tsx:28-37 | one "System ready" info entry with id 1; the counter starts at 2 |
| FacebookAds.ActivityLog.AddLog | src/components/ads/facebookAds.tsx:41-50 | the new entry takes the counter as id and goes first, the list is cut to 20, the counter grows by one; ids stay below the counter and newest first |
| ProductsPage.AddToCart | src/components/ui/products-page.tsx:17-25 | an id in the cart gains one unit on its line and nothing else changes; a new id is appended as `{id, 1}` after the unchanged cart |
| ProductsPage.HandleAddToCart | src/components/ui/products-page.tsx:16-27 | adding switches to the order tab |
| ProductsPage.AddToCartTotal | src/components/ui/products-page.tsx:16-25 | with unique ids, the total quantity grows by exactly one and the line count by at most one |
| ProductsPage.AddToCartKeepsIdsUnique | src/components/ui/products-page.tsx:18-24 | unique ids stay unique |
| ProductsPage.IncrementedTotal | src/components/ui/products-page.tsx:20-22 | incrementing raises the total by the number of lines with that id |
| OrderForm.MergeFetched | src/components/ui/order-form.tsx:52-57 | each field becomes the fetched value when that is non-empty and keeps the form's otherwise, so empty fetched data never clears a filled field |
| OrderForm.NewerIffChanges | src/components/ui/order-form.tsx:45-57 | the corrected guard (some non-empty fetched field differs) holds exactly when the merge would change the form |
| OrderForm.ApplyFetch | src/components/ui/order-form.tsx:36-73 | the corrected fetch step: nothing happens without a user id or an order, or when the merge would change nothing; otherwise the form becomes the merge into the current form, the order id is taken only when one is fetched, and the auto-filled notice is shown |
| OrderForm.NoNewDataMeansNoChange | src/components/ui/order-form.tsx:45-57 | when `hasNewData` is false the merge would change nothing |
| OrderForm.MergeFetchedIdempotent | src/components/ui/order-form.tsx:52-57 | merging the same order twice equals merging it once |
| OrderForm.PollingSettles | src/components/ui/order-form.tsx:45-87 | with the corrected step, whatever fields the order has, a second poll of the same order finds nothing new and changes nothing |
| OrderForm.FullOrderSettlesAsWritten | src/components/ui/order-form.tsx:45-57 | with the stale-snapshot fix alone (the `hasNewData` guard as written, compared with the current form), a merged order with all four fields non-empty is not new on the next poll |
| OrderForm.MissingPhoneNeverSettles | src/components/ui/order-form.tsx:45-57 | with the `hasNewData` guard as written, even against the current form, an order without a phone is new after every merge into a form with an empty phone (`undefined !== ""`) |
| OrderForm.NoticeReraisedEveryPoll | src/components/ui/order-form.tsx:45-69 | with the snapshot kept current but the guard as written, an order without a phone still shows the auto-fill notice on every poll without changing the form, while the corrected step leaves the state alone |
| OrderForm.EveryStoredOrderNewAtMount | src/components/ui/order-form.tsx:35-49 | as shipped the guard compares with the empty form captured at mount; a stored order (every field undefined or non-empty) with some contact field is always new against it |
| OrderForm.NoticeReraisedAsShipped | src/components/ui/order-form.tsx:35-90 | as shipped, every stored order, phone or not, shows the auto-fill notice again on every poll though the form already holds its merge; the corrected step leaves the state alone |
| OrderForm.NotNewerAfterMerge | src/components/ui/order-form.tsx:52-57 | right after a merge, the same order is not newer than the form |
| OrderForm.ApplyFetchAsWritten | src/components/ui/order-form.tsx:35-90 | the polling step as written, with the `hasNewData` guard (some fetched field differs, undefined differing from every string) evaluated against the form captured at mount; with an up-to-date form it yields the corrected step's form data, and the whole corrected state whenever the two guards agree |
| OrderForm.StalePollClearsTypedEmail | src/components/ui/order-form.tsx:45-57 | a typed email is wiped by the poll as written and kept by the corrected step |
| OrderForm.SetField | src/components/ui/order-form.tsx:92-95 | an edit changes only the named field |
| OrderForm.Submit | src/components/ui/order-form.tsx:97-152 | `isFormComplete` is name, email and address filled: an incomplete form is rejected; a complete one is posted iff there is a user id, with userId, the four form values and status "submitted"; without a user id it is only marked submitted |
| OrderForm.PhoneIsOptional | src/components/ui/order-form.tsx:152 | editing the phone never changes whether the form is complete |
| OrderForm.SubmitStoresForm | src/components/ui/order-form.tsx:110-123 | a complete form with a user id is sent and lands in the store with its name, email and address; an empty phone keeps the stored one |
| ProductsPage.FormNeverSyncsAsWritten | src/components/ui/products-page.tsx:71 | the form on the order tab gets no user id, so whatever id the page has, every fetch step (as written, with any snapshot, and corrected) leaves the form alone and a complete form is only marked submitted |
| ProductsPage.FormSyncsWithPageUser | src/components/ui/products-page.tsx:12 | with the page's user id passed on, a visitor with an id gets the stored order merged in and a complete form posted under that id |
| CreateAdSetPage.ToggleCountry | src/components/pages/create-ad-set.tsx:56-58 | the toggled country's membership flips and no other country's changes; an absent country is appended at the end |
| CreateAdSetPage.ToggleKeepsNoDuplicates | src/components/pages/create-ad-set.tsx:57 | a selection without duplicates stays without duplicates |
| CreateAdSetPage.ToggleTwiceRestores | src/components/pages/create-ad-set.tsx:57 | toggling an absent country twice restores the selection exactly |
| CreateAdSetPage.ToggleTwiceMovesToEnd | src/components/pages/create-ad-set.tsx:57 | toggling a selected country twice moves it to the end |
| CreateAdSetPage.InitialSelection | src/components/pages/create-ad-set.tsx:16 | the page starts with just "US", one of the offered countries |
| CreateAdSetPage.PreselectedCampaign | src/components/pages/create-ad-set.tsx:25-26 | a non-empty `campaignId` parameter preselects that campaign; otherwise the choice stays |
| CreateAdSetPage.SubmitPayload | src/components/pages/create-ad-set.tsx:36-40 | nothing is sent when the campaign or the name is empty; otherwise `{campaignId, name}` |
| CreateAdSetPage.SubmittedAdSetTargetsDefault | src/components/pages/create-ad-set.tsx:36-58 | a submitted ad set is accepted under the chosen campaign and name and targets the United States, whatever countries were selected |
| ProductsGrid.Filtered | src/components/ui/products-grid.tsx:68-73 | a product is shown iff its name or description contains the query ignoring case and the category is "All" or its own |
| ProductsGrid.FilteredIsSubsequence | src/components/ui/products-grid.tsx:68 | the results keep catalogue order |
| ProductsGrid.EmptySearchMatches | src/components/ui/products-grid.tsx:69-70 | the empty search matches every product |
| ProductsGrid.EmptySearchShowsAll | src/components/ui/products-grid.tsx:69-71 | the empty search under "All" shows the whole catalogue |
| ProductsGrid.EmptySearchByCategory | src/components/ui/products-grid.tsx:69-72 | with an empty search a tab shows exactly its category's products |
| ProductsGrid.CategoryNarrows | src/components/ui/products-grid.tsx:71-72 | a specific category's results are an order-preserving sub-list of the "All" results for the same query |
| Common.Lower | src/components/ui/products-grid.tsx:69-70 | lower-casing keeps the length and folds each character |
| Common.WithoutMembers | src/components/pages/create-ad-set.tsx:57 | filtering out a value keeps exactly the other members |
| Common.WithoutNoDuplicates | src/components/pages/create-ad-set.tsx:57 | filtering keeps a list duplicate-free |

## Left out

- The Graph API calls, the order form's calls to `/api/orders`, and the `src/utils` wrappers are network I/O. A Graph reply is an input (`Graph.Upstream`). The fetch wrappers' error handling is not part of this model.
- HMAC-SHA256, UTF-8 encoding, `JSON.parse` and `Date.toISOString` are library calls. They appear as function parameters with no properties assumed.
- The clock (`new Date()`, `Date.now()`) is a parameter `now`, so the one-week end time is stated relative to it.
- JSON numbers are integers, printed digit by digit. `String(v)` switching to exponent form from 10^21 on, and `JSON.parse` rounding integers above 2^53, are not modelled. Floating-point values, their `String` form, and the price, tax and `toFixed` totals of the order form are left out. So are the `cartItems` and `total` it sends, which the store ignores.
- Query strings are sequences of key/value pairs. URL encoding by `URLSearchParams` and `encodeURIComponent` is not modelled.
- `Common.Lower` folds ASCII letters only. Full Unicode case mapping is left out.
- A plain JavaScript object used as a dictionary also inherits keys such as `constructor`. That quirk of the grouping dictionary is left out; `map` is a clean dictionary.
- The order store's body fields are strings or missing. A non-string JSON value in `name` and similar fields is not modelled.
- The message the `Response` constructor throws for a null-body status is a parameter (`nullBodyError`) of `Graph.Relay`.
- The order form's poll timer, loading flags, five-second notice reset and `lastUpdate` are async lifecycle code. The table's `Promise.all` and `mounted` flag are too. The fetch step is modelled as one function applied to the current state.
- The create-ad-set page's age, gender and bid strategy fields are left out, because nothing reads them. So are its campaign list loading and the navigation after creation.
- The activity log's timestamps are parameters. The callers of `addLog`, the OAuth redirect, and `Math.random` in `facebookAds.tsx` are left out.
- Rendering (JSX) is left out. The table component computes `rows` but renders the campaign and ad set lists directly. The grouping is modelled as the code computes it.
- Webhook.TimingSafeEqual: states the result, not that the running time is independent of where the inputs differ.

## Findings

| source | as written | input that shows it | evidently intended | confidence | as-written member | corrected member |
|---|---|---|---|---|---|---|
| src/components/ui/products-page.tsx:71 | The order tab renders `<OrderForm cartItems={cart} />` without the `userId` the page receives (line 12, passed from `app/products/page.tsx:11`). The form's `userId` is always undefined. | A visitor opens `/products?fbUserId=U1` with an order stored for U1. The form never fetches it, and submitting a complete form posts nothing. | Pass `userId` on to the form, so the stored order is loaded and the submitted one saved. | not executed | ProductsPage.FormNeverSyncsAsWritten | ProductsPage.FormSyncsWithPageUser |
| src/components/ui/order-form.tsx:45-57 | The polling callback is created once per `userId` (effect dependencies `[userId]`). It compares with, and merges into, the form as it was at mount, not the form the user has since edited. The shipped page cannot reach this path (previous row); it is reachable once the user id is passed. | Form empty at mount; the user types email "jo@example.com"; the stored order has only name "Jo". The next poll sets the form to name "Jo" and email "", wiping the typed email. | Merge into the current form, so a fetched empty field never clears what the user typed. | not executed | OrderForm.StalePollClearsTypedEmail | OrderForm.ApplyFetch |
| src/components/ui/order-form.tsx:45-49 | `hasNewData` compares each fetched field with `!==`, and an absent field is `undefined`, which differs from the form's "". As shipped it also compares with the empty form from mount (previous row), and the store never keeps "", so every stored order is "new" on every poll. With the snapshot fixed alone, an order stored without the optional phone still is. | Stored order `{name: "Jo", email: "jo@example.com", address: "1 Main St"}` already merged into the form. Every poll re-runs the merge and shows the auto-fill notice again, so it never goes away; as shipped the same happens with a phone too. | Treat as new only a non-empty fetched field that differs from the current form, so polling settles after one merge. | not executed | OrderForm.NoticeReraisedEveryPoll | OrderForm.PollingSettles |
