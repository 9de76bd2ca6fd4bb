# Air-conditioning installer website — verified model of its interactive core

This project models the logic behind the marketing site of RSM Air Conditioning, an installer of split-system and ducted air conditioning. It covers:

- the installation gallery: category filter, card modal, image paging, before/after toggle;
- the three server routes that proxy review and place data from Facebook, Trustpilot and the Google Places text search;
- the Google reviews component: its fetch with error classification, its component state, its render priority and its star row;
- the multi-platform reviews block: its fixed review list, its platform badges and its star row.

JavaScript semantics are modelled explicitly where the code depends on them, in module `Js`:

- Truthiness, and `||` (`Or`).
- Optional chaining and reading a missing property (`Get`): both give `undefined`.
- A TypeError thrown by `.` on `null` or `undefined` (`Prop`), with a message naming the value and the property (`ReadErrorMessage`).
- `map`, where a throw in the callback aborts the whole map (`MapArray`).
- `String.prototype.includes` (`Includes`).
- The string conversion of a value (`ToJsString`) and the message of `new Error(v)` (`ErrorMessage`).

Each route is split into four parts:

- `Begin` is what the handler does before its one outbound `fetch`. It either gives an immediate response or the request to send.
- `Transform` is what the handler does with the parsed body: the list it returns, or the exception that ends the `try` block.
- `Finish` turns what `fetch` and `response.json()` gave (a value or an exception) into the HTTP response, through the shared `Http.FinishList`: 200 with the transformed list, or the route's fixed 500.
- `HandleGet` composes `Begin` and `Finish` through `Http.Handle`, with `fetch` as a function parameter.

Stateful parts of the React components are classes whose methods change their fields under `modifies`. These are `ReviewsState` for the Google reviews component and `GalleryState` for the gallery. The gallery's shipped records, and the filter and buttons over them, are in module `GalleryCatalog`; `InstallationGallery` states the gallery for any well-formed list of records.

## Behaviour worth noting

The code behaves as follows in these places:

- **Route error bodies.** The Facebook, Trustpilot and search routes answer every upstream failure with one fixed message and status 500. They do not pass on the provider's status or message.
- **Trustpilot status.** The Trustpilot route never looks at the upstream status. An error body without a `reviews` list gives 200 with an empty list.
- **Search results.** The search route throws, and so answers 500, when `results` is missing.
- **Ratings.** Ratings are passed through as read, without validation.
- **"Unknown error".** The "Unknown error" branch of the Google component cannot be reached: every value thrown inside its `try` is an `Error`.

## Model

| member | source | states |
|---|---|---|
| Js.Get | app/api/facebook-reviews/route.ts:26-28 | `v?.k` gives the property when `v` is an object holding `k`, and `undefined` otherwise, in particular for null and undefined `v` |
| Js.ReadErrorMessage | app/api/trustpilot-reviews/route.ts:24 | the TypeError text for reading `k` of a nullish value contains `'k'` and the word "null" or "undefined" for the value read |
| Js.Prop | app/api/trustpilot-reviews/route.ts:24 | `v.k` throws exactly when `v` is null or undefined, with the message naming the property; otherwise it gives what `v?.k` gives |
| Js.Or | components/google-reviews.tsx:113 | `a \|\| b` is one of its operands, truthy exactly when either operand is; it is `a` when `a` is truthy and `b` otherwise |
| Js.MapArray | app/api/facebook-reviews/route.ts:25-34 | `map` succeeds iff the callback succeeds on every element; the result has the same length and holds each callback result in place; a failure carries the message of some element's exception |
| Js.NatToString | components/google-reviews.tsx:113 | the decimal rendering of a natural number is a non-empty digit string without a leading zero that reads back as the number |
| Js.IntToString | components/google-reviews.tsx:113 | a non-negative integer renders as its digits; a negative one as "-" followed by the digits of its magnitude |
| Js.ToJsString | app/api/search-places/route.ts:32 | `String(v)` leaves a string unchanged, gives the digits of a non-negative number, "null", "undefined", "" for an empty array and "[object Object]" for an object |
| Js.ErrorMessage | app/api/facebook-reviews/route.ts:21 | the message of `new Error(v)` is "" for `undefined`, the string itself for a string, and `String(v)` for anything else |
| Js.Includes | components/google-reviews.tsx:127-129 | `s.includes(t)` is true exactly when `t` occurs in `s` at some position |
| Http.AnswerWithoutCallIgnoresFetch | app/api/facebook-reviews/route.ts:9-11 | a handler that answers before fetching gives that answer whatever `fetch` would do |
| Http.FinishList | app/api/facebook-reviews/route.ts:36-40 | the response is 200 or the route's fixed 500; 200 exactly when fetching and parsing succeeded and the transform of the body did not throw; then the response's list is exactly that transform's list |
| FacebookReviews.Begin | app/api/facebook-reviews/route.ts:9-16 | answers 500 "Facebook API not configured" exactly when the token or page id is missing or empty; otherwise requests the page's ratings URL with no headers |
| FacebookReviews.MapReview | app/api/facebook-reviews/route.ts:26-34 | succeeds iff the review is not null/undefined; yields exactly the seven output fields: id and rating copied, reviewer name or "Facebook User", review text or "", formatted creation time, platform "facebook", the page's reviews link |
| FacebookReviews.Transform | app/api/facebook-reviews/route.ts:20-34 | succeeds exactly when the body is not nullish, has no truthy `error`, and `data` is absent or an array of non-nullish entries; yields one mapped review per entry, in order; a nullish body throws the TypeError for `error`, a truthy `error` throws with the message of `new Error(error.message)` |
| FacebookReviews.Finish | app/api/facebook-reviews/route.ts:18-40 | status is 200 or the fixed 500 "Failed to fetch Facebook reviews"; 200 exactly when the body parsed, has no truthy `error`, and its `data` list is absent or maps without throwing; then the list is the element-wise mapping of `data` |
| FacebookReviews.HandleGet | app/api/facebook-reviews/route.ts:7-41 | the unconfigured answer, or the finished outcome of the one ratings request |
| FacebookReviews.UnconfiguredMakesNoCall | app/api/facebook-reviews/route.ts:9-11 | without credentials the response is 500 whatever `fetch` would do |
| FacebookReviews.MappedReviewHasAuthorAndText | app/api/facebook-reviews/route.ts:28-30 | a mapped review's author name is always truthy (the reviewer's name, or "Facebook User"); its text is truthy or exactly "", and a truthy non-string text is passed through as read |
| FacebookReviews.AbsentListGivesEmptyReviews | app/api/facebook-reviews/route.ts:25-36 | a body with no truthy error and no `data` gives 200 with an empty list |
| TrustpilotReviews.Begin | app/api/trustpilot-reviews/route.ts:9-17 | answers 500 "Trustpilot API not configured" exactly when the key or business id is missing or empty; otherwise requests the business's reviews URL with the `ApiKey` header set to the key |
| TrustpilotReviews.MapReview | app/api/trustpilot-reviews/route.ts:22-30 | succeeds iff the review and its `consumer` are both not null/undefined; yields exactly the seven output fields copied from id, consumer name, stars, text, formatted creation time, platform "trustpilot" and url |
| TrustpilotReviews.Transform | app/api/trustpilot-reviews/route.ts:21-30 | succeeds exactly when the body is not nullish and `reviews` is absent or an array whose entries and their `consumer` are all not nullish; yields one mapped review per entry, in order; a nullish body throws the TypeError for `reviews` |
| TrustpilotReviews.Finish | app/api/trustpilot-reviews/route.ts:19-35 | status is 200 or the fixed 500; 200 exactly when the body parsed, is not null/undefined and its `reviews` list is absent or maps without throwing; no upstream status is consulted |
| TrustpilotReviews.HandleGet | app/api/trustpilot-reviews/route.ts:7-37 | the unconfigured answer, or the finished outcome of the one reviews request |
| TrustpilotReviews.UnconfiguredMakesNoCall | app/api/trustpilot-reviews/route.ts:9-11 | without credentials the response is 500 whatever `fetch` would do |
| TrustpilotReviews.MissingConsumerFailsWholeCall | app/api/trustpilot-reviews/route.ts:21-24 | one review without `consumer` turns the whole response into the 500 failure |
| TrustpilotReviews.AbsentListGivesEmptyReviews | app/api/trustpilot-reviews/route.ts:21-32 | a body without `reviews` gives 200 with an empty list |
| SearchPlaces.Begin | app/api/search-places/route.ts:12-26 | a missing or empty query gives 400 "Query parameter is required"; else a missing or empty key gives 500 "Google Places API key not configured"; else the text-search request for the encoded query and key |
| SearchPlaces.Project | app/api/search-places/route.ts:36-43 | a place projects to exactly its six listed fields, each copied as read; only the first read can throw, and it does exactly when the place is null/undefined |
| SearchPlaces.Transform | app/api/search-places/route.ts:31-43 | succeeds exactly when the body has status "OK" and an array of results whose entries are all not nullish; yields their projections, in order; a nullish body throws the TypeError for `status`, another status throws "Google Places API error: " followed by the status as a string, and nullish results throw the TypeError for `map` |
| SearchPlaces.Finish | app/api/search-places/route.ts:28-49 | status is 200 or the fixed 500 "Failed to search places"; 200 exactly when the parsed body has status "OK" and an array of results that all project; then the results are their projections, in order |
| SearchPlaces.HandleGet | app/api/search-places/route.ts:10-50 | the early 400/500 answer, or the finished outcome of the one search request |
| SearchPlaces.QueryCheckedBeforeKey | app/api/search-places/route.ts:15-21 | without a query the answer is 400 whatever the key is |
| SearchPlaces.NonOkStatusFails | app/api/search-places/route.ts:31-33 | any status other than "OK" gives the 500 failure |
| StarRating.RenderStars | components/google-reviews.tsx:147-151 | exactly five stars, star `i` filled exactly when `i < rating` |
| StarRating.FilledStarsArePrefix | components/multi-platform-reviews.tsx:67-71 | filled stars come before empty ones |
| StarRating.FilledCountOfPrefix | components/multi-platform-reviews.tsx:67-71 | a row whose star `i` is filled iff `i < rating` has `rating` clamped to its length filled stars |
| StarRating.FilledCountIsClampedRating | components/multi-platform-reviews.tsx:67-71 | the number of filled stars is the rating clamped to 0..5 |
| GoogleReviews.ErrorText | components/google-reviews.tsx:127-133 | the configuration text when the message mentions "API key" or "PERMISSION_DENIED"; else the not-found text when it mentions "NOT_FOUND"; else "Failed to load Google reviews: " followed by the message |
| GoogleReviews.ErrorTextClassifies | components/google-reviews.tsx:127-133 | each fixed text is shown exactly under its condition; any other text is the prefix followed by the original message; no text is empty |
| GoogleReviews.Attempt | components/google-reviews.tsx:108-121 | the `try` block completes exactly for an ok response whose parsed body is not null/undefined, and then yields that body; a rejected `fetch` or a failed `json()` passes its own message on; a null or undefined body throws the TypeError for reading `reviews` (ok response) or `error` (otherwise); a non-ok response with a body throws with the string of its truthy `error`, or with "HTTP error! status: N" |
| GoogleReviews.Render | components/google-reviews.tsx:153-177 | spinner while loading; else the error view for a non-empty error; else the content |
| GoogleReviews.FailureShowsErrorView | components/google-reviews.tsx:122-177 | once loading ends after a failure the error view is shown, never an empty content view |
| GoogleReviews.ReviewsState.constructor | components/google-reviews.tsx:37-41 | empty reviews, null place data, loading, no error, never updated; the spinner shows |
| GoogleReviews.ReviewsState.BeginFetch | components/google-reviews.tsx:104-106 | loading set and error cleared, data kept; the spinner shows |
| GoogleReviews.ReviewsState.SettleFetch | components/google-reviews.tsx:108-140 | on success the body becomes the place data, its `reviews` or [] the list, the clock reading the update time, no error, content shown; on failure place data and reviews are cleared and the classified text is shown; loading always ends |
| MultiPlatformReviews.PlatformBadge | components/multi-platform-reviews.tsx:56-65 | "google" gets the Google badge, "facebook" the Facebook badge, everything else the generic "Review" badge |
| MultiPlatformReviews.RenderCard | components/multi-platform-reviews.tsx:101-137 | a card carries its platform's badge, the photo or the placeholder, the five-star row of its rating, and a source link exactly when the review has a non-empty source URL |
| MultiPlatformReviews.RenderCards | components/multi-platform-reviews.tsx:101 | one card per review, in order |
| MultiPlatformReviews.Displayed | components/multi-platform-reviews.tsx:53-101 | the component always shows the three cards of the fixed list, in order, because the list state is never replaced |
| MultiPlatformReviews.ManuallyCollectedIdsDistinct | components/multi-platform-reviews.tsx:21-50 | the fixed list's ids are pairwise distinct |
| MultiPlatformReviews.ManuallyCollectedReviewsWellFormed | components/multi-platform-reviews.tsx:21-50 | every review of the fixed list is rated within 1..5, comes from google or facebook, and has a source link |
| MultiPlatformReviews.DisplayedCardsAreLabelled | components/multi-platform-reviews.tsx:101-137 | every displayed card has a Google or Facebook badge, a source link and five filled stars |
| InstallationGallery.FilterBy | components/installation-gallery.tsx:113-116 | keeps exactly the records of the category, all of them, in their original order |
| InstallationGallery.FilteredFrom | components/installation-gallery.tsx:113-116 | "all" shows the whole list; any other id shows exactly the records of that category, as a subsequence of the list |
| InstallationGallery.SubsequenceOfItself | components/installation-gallery.tsx:114-115 | the whole list, shown for "all", is a subsequence of itself |
| InstallationGallery.ButtonsFor | components/installation-gallery.tsx:100-105 | four buttons in display order, "all" and the three categories with their captions; "all" counts every record and each category button the records of its category |
| InstallationGallery.CategoryCountsPartition | components/installation-gallery.tsx:100-105 | the three category counts add up to the number of records |
| InstallationGallery.ButtonCountsMatchFilters | components/installation-gallery.tsx:100-116 | four filter buttons, each counting exactly the cards it shows, with the three category counts adding up to the "all" count |
| InstallationGallery.CategoryColor | components/installation-gallery.tsx:130-141 | residential is blue, commercial green, maintenance orange, any other string grey |
| InstallationGallery.CategoryColorsDistinct | components/installation-gallery.tsx:130-141 | the three categories have three different colours, none of them the grey fallback |
| InstallationGallery.NextIndex | components/installation-gallery.tsx:118-122 | from an index within the media list, next moves to `(i + 1) mod n` |
| InstallationGallery.PrevIndex | components/installation-gallery.tsx:124-128 | from an index within the media list, previous moves to `(i - 1 + n) mod n` |
| InstallationGallery.PrevUndoesNext | components/installation-gallery.tsx:118-128 | next and previous undo each other |
| InstallationGallery.AdvanceByIsModular | components/installation-gallery.tsx:118-122 | `k` presses of next from `i` land on `(i + k) mod n` |
| InstallationGallery.GalleryState.constructor | components/installation-gallery.tsx:108-111 | "all" selected, no modal, index 0, comparison hidden; every record of the list is shown |
| InstallationGallery.GalleryState.SelectCategory | components/installation-gallery.tsx:147-151 | the selection becomes the button's id and the visible cards its filter; nothing else changes |
| InstallationGallery.GalleryState.OpenCard | components/installation-gallery.tsx:176-180 | a visible card opens on its first image with the comparison hidden; the index stays within its media |
| InstallationGallery.GalleryState.NextImage | components/installation-gallery.tsx:118-122 | with a record open the index moves forward by one, wrapping; without one nothing changes |
| InstallationGallery.GalleryState.PrevImage | components/installation-gallery.tsx:124-128 | with a record open the index moves back by one, wrapping; without one nothing changes |
| InstallationGallery.GalleryState.Click | components/installation-gallery.tsx:252-285 | the backdrop and the X button close the modal; a click on the panel changes nothing; index and toggle are kept |
| InstallationGallery.GalleryState.SelectThumbnail | components/installation-gallery.tsx:345-350 | on a record with paging, thumbnail `k` becomes the current image |
| InstallationGallery.GalleryState.ToggleBeforeAfter | components/installation-gallery.tsx:368-372 | on a record with both images, the comparison flag flips and nothing else changes |
| GalleryCatalog.CatalogIsWellFormed | components/installation-gallery.tsx:26-98 | the shipped ids are distinct, every record has media, and the only video record (id 2) has a single media entry |
| GalleryCatalog.Filtered | components/installation-gallery.tsx:113-116 | over the shipped records: "all" shows them all; any other id shows exactly the records of that category, in catalog order |
| GalleryCatalog.Categories | components/installation-gallery.tsx:100-105 | four buttons over the shipped records, "all" first counting all six, each button counting exactly the cards its filter shows |
| GalleryCatalog.CategoryCountsMatchFilters | components/installation-gallery.tsx:100-116 | over the shipped records, each badge counts the cards its button shows and the category counts add up to the "all" count |
| GalleryCatalog.CatalogOffersNoPagingOrComparison | components/installation-gallery.tsx:315-372 | as shipped, no record shows arrows, thumbnails or the comparison toggle |
| GalleryCatalog.NewGallery | components/installation-gallery.tsx:108-116 | the first render lists the shipped records, shows all of them with "all" selected, no modal, index 0 and comparison hidden |

## Left out

- Network, clocks and the environment are inputs. Outbound `fetch` is a function parameter. `process.env` values and the query string are `Option<string>` inputs. `new Date()` is an integer parameter.
- `toLocaleDateString` is a function parameter `formatDate`, and `encodeURIComponent` is a parameter `encode`. Their output is locale- and Unicode-dependent.
- Js.ToJsString: an object that carries its own `toString` key is not modelled. For such an object `String(v)`, `new Error(v)` and `new Date(v)` throw "Cannot convert object to primitive value", while the model gives "[object Object]", and `formatDate` is assumed total. TypeError texts (`ReadErrorMessage`) follow the V8 wording. Other browsers word them differently, so for the client component the text shown for a null body may differ.
- `console.error` logging has no effect on state or responses, so it is not modelled.
- Numbers are integers. Ratings that are non-integral JSON numbers and the rounding of the aggregate rating are not modelled.
- JSON serialisation order is not modelled, and neither is `JSON.stringify` dropping fields whose value is `undefined`. Such a field stays in the response object as `Undefined`, which reads back the same through `Get`.
- The mock review data kept in the Google component is never shown, so it is not modelled.
- The unused `loading` state of the multi-platform block is not modelled.
- The aggregate summary, the counters and the timestamps in the rendered markup are not modelled.
- Markup, styling and animations are not modelled: image fallback handlers, motion, theme providers, page transitions and static pages.
- The Google reviews server route and the place-id admin page are not part of this model.
- The merge-conflict markers at the top of the search route are not modelled. The model follows the code below them.
- React's asynchronous batching of state updates is not modelled. `SettleFetch` applies the updates in program order, which gives the same final state.
- Re-render timing is not modelled. The "Try Again" and "Refresh" buttons are `BeginFetch` followed by `SettleFetch`.
- GalleryState.SelectThumbnail: requires that paging is offered, because the thumbnails are rendered only then.
- GalleryState.ToggleBeforeAfter: requires that both images are present, because the toggle button is rendered only then.
- GalleryState.Click: requires an open modal, because the backdrop, the panel and the X button exist only then.
- GalleryState: the list of records is a field, `installations`, so that the handlers are stated for any well-formed list. The shipped list is supplied by `GalleryCatalog.NewGallery`. In that list no record offers paging or the toggle (`GalleryCatalog.CatalogOffersNoPagingOrComparison`), so `SelectThumbnail` and `ToggleBeforeAfter` cannot be called on it.
- GoogleReviews.Render: the content view assumes that `reviews` is an array of objects. In the component a non-array `reviews`, or a null element in it, throws while rendering the grid (components/google-reviews.tsx:221-223). The model does not capture that render-time failure, so `Render` and `SettleFetch` end on the content view for such an ok body.
