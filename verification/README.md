# TourMate discovery core in Dafny

TourMate is a travel web app. It finds tourist places near the user, lets the user
filter them by category, sort them by distance, rating or entry fee, or search
them by text, and lists transit buses to a chosen place. This project models the
logic of that app and proves properties about it:

- **The discovery page** (`src/pages/Index.tsx`):
  - the debounced effect that turns the place list into the displayed list;
  - the hand-off to remote text search;
  - how the replies of the nearby, search and transit calls update the page state.
- **The entry-fee sort key**: `"Free"` is 0. Anything else is `parseInt` of the string with every non-digit removed.
- **The sort comparator and `Array.prototype.sort`**:
  - The sort is a stable insertion sort: the ECMA-262 definition of `Array.prototype.sort` has required stability since its 2019 edition.
  - A NaN comparison counts as a tie.
- **The five backend functions** under `supabase/functions/`:
  - place search;
  - nearby places;
  - transit routes;
  - place details;
  - location name (reverse geocoding).

  Each is modelled as a pure function from the request body and the provider's decoded reply to a `Result`. Every explicit `throw` is an `Err` with the message the function sends back; a runtime TypeError is an `Err` with a fixed placeholder message.
- **The lightbox of `src/components/ImageGallery.tsx`.**
- **The record types of `src/types/index.ts`.**
- **The four sample places of `src/lib/mockData.ts`**, used as worked examples of the sort and filter.

Modules, one per file:

| Module | File | What it contains |
|---|---|---|
| `Wrappers` | `wrappers.dfy` | `Option`, `Result` |
| `Seqs` | `seqs.dfy` | small sequence lemmas |
| `Text` | `text.dfy` | decimal digits and `parseInt` on digit strings; the JavaScript whitespace set and `trim`; `join`, `includes`, `indexOf`; the logical-or fallback on optional strings |
| `Types` | `types.dfy` | `Place`, `Festival`, `Bus`, `Category`, `BusType`, `FilterType`, `SortType` |
| `Fee` | `fee.dfy` | the fee key and fee comparison |
| `Discovery` | `discovery.dfy` | comparator, insertion sort, category filter, `DeriveLocal` |
| `Controller` | `controller.dfy` | page state, debounce, reply handling |
| `Provider` | `provider.dfy` | provider payload and shared helpers |
| `PlaceSearch`, `NearbyPlaces`, `TransitRoutes`, `PlaceDetails`, `LocationName` | one file each | the five backend functions |
| `Gallery` | `gallery.dfy` | the lightbox |
| `Seed` | `seed.dfy` | the sample places |

Some inputs are parameters:

- The Haversine distance is a `DistanceFn`.
- The random fare is a `FareFn`. Its range of 20 to 70 is stated by `FaresInRange`.
- The API key is a string.

Points where the code does something a reader might not expect:

- **A non-numeric fee.** Its key is NaN, not 0, because `parseInt("")` is NaN. A NaN key compares as a tie with everything. So "Contact for details" does not sort like "Free". When every fee is NaN the sort keeps the list as it is. When NaN and numeric fees are mixed the comparator is inconsistent and ECMA-262 leaves the order to the engine; the model inserts linearly from the right, so a NaN place is never passed by a later place.
- **A fee with several digit runs.** Every digit is concatenated, so `"₹10-20"` keys as 1020. The key is not the first run of digits.
- **Only the exact string `"Free"` is free.** `"free"` is NaN.
- **The local list has no text filter.** With an empty query the list is only filtered by category and sorted. A non-empty query always goes to the search backend.
- **There is no last-request-wins guard.** A search reply replaces the display whatever has happened since (`SearchReplyIgnoresViewChoices`). A failed search leaves the display unchanged.
- **A coordinate of exactly 0 is rejected** by the search and location-name input gates, because 0 is falsy.
- **One bad record aborts the nearby batch.** A nearby result without `types` makes the whole call fail with a TypeError. It is not skipped.

## Model

| member | source | states |
|---|---|---|
| Types.BusTypeNameRoundTrip | src/types/index.ts:34 | the four bus-type strings of the union type read back as their type, and only those strings are bus types |
| Types.CategoryNameRoundTrip | src/types/index.ts:9 | the five category strings of the union type read back as their category, and only those strings are categories |
| Fee.FeeKeyOf | src/pages/Index.tsx:178-179 | exactly "Free" keys as 0; the key is NaN exactly when the fee is not "Free" and contains no digit |
| Fee.CompareFees | src/pages/Index.tsx:180 | a fee comparison returns a sign; any NaN side gives a tie; two numbers compare by value in both directions |
| Fee.FeeKeyOfRendered | src/pages/Index.tsx:178-179 | a digit-free prefix followed by the decimal rendering of n keys as n, so "₹50" is 50 |
| Fee.FeeKeyOfRange | src/pages/Index.tsx:178-179 | a fee of two numbers around a digit-free separator keys as the digits concatenated (low shifted past high's digits, plus high) |
| Discovery.CompareMeaning | src/pages/Index.tsx:171-183 | a non-positive comparison means nearer first for distance, higher first for rating, and no larger fee for two numeric fees; a NaN fee ties |
| Discovery.CompareAntisymmetric | src/pages/Index.tsx:171-183 | swapping the two places negates the comparator result for every sort key |
| Discovery.CompareTransitive | src/pages/Index.tsx:171-183 | among places with a numeric key, "not after" is transitive |
| Discovery.InsertPermutes | src/pages/Index.tsx:171 | inserting one place adds exactly that place to the multiset of the list |
| Discovery.SortPermutes | src/pages/Index.tsx:171 | the sort returns a permutation of its input |
| Discovery.SortAdjacentSorted | src/pages/Index.tsx:171-184 | after the sort no neighbouring pair is out of order, for every key, even with NaN fees present |
| Discovery.AdjacentToSorted | src/pages/Index.tsx:171-184 | when every key is numeric, neighbours in order imply every pair in order |
| Discovery.SortSorted | src/pages/Index.tsx:171-184 | with numeric keys the sorted list is ordered for every pair of positions |
| Discovery.SortIdentityOnSorted | src/pages/Index.tsx:171-184 | an already ordered list is returned unchanged |
| Discovery.InsertTies | src/pages/Index.tsx:171-184 | inserting a place keeps the relative order of the places tying with any given place and puts the new one after them |
| Discovery.SortStable | src/pages/Index.tsx:171-184 | places whose keys tie keep their input order (stable sort) |
| Discovery.FeeSortKeepsOrderWhenAllNaN | src/pages/Index.tsx:178-180 | when no fee has a digit, sorting by fee leaves the list exactly as it was |
| Discovery.FilterCounts | src/pages/Index.tsx:166-168 | the category filter keeps each matching place as often as it occurs and drops every other place |
| Discovery.FilterAllKeepsEverything | src/pages/Index.tsx:166-168 | a filter that every place matches, 'all' in particular, returns the list unchanged |
| Discovery.DeriveLocal | src/pages/Index.tsx:163-186 | the local list holds exactly the places of the active category with their multiplicities (all of them for 'all'), with no neighbouring pair out of order |
| Discovery.DeriveLocalMatches | src/pages/Index.tsx:166-168 | every displayed place belongs to the active category |
| Discovery.DeriveLocalByDistance | src/pages/Index.tsx:173-174 | sorted by distance, every earlier place is at most as far as every later one |
| Discovery.DeriveLocalByRating | src/pages/Index.tsx:175-176 | sorted by rating, every earlier place is rated at least as high as every later one |
| Discovery.DeriveLocalByEntryFee | src/pages/Index.tsx:177-180 | when every fee has a numeric key, every earlier place costs at most as much as every later one |
| Discovery.DeriveLocalStable | src/pages/Index.tsx:171-184 | places with equal keys appear in the order the filter left them |
| Discovery.DeriveLocalIdempotent | src/pages/Index.tsx:157-191 | recomputing the local list from its own result gives the same list |
| Controller.SetQuery | src/pages/Index.tsx:191 | typing re-arms the timer exactly when the query changes and touches no other state |
| Controller.SetFilter | src/pages/Index.tsx:191 | choosing a filter re-arms the timer exactly when the filter changes and touches no other state |
| Controller.SetSort | src/pages/Index.tsx:191 | choosing a sort key re-arms the timer exactly when the key changes and touches no other state |
| Controller.FireDebounce | src/pages/Index.tsx:157-191 | an unarmed timer does nothing. An empty query shows the local list. A blank query or missing coordinates show the raw places. Otherwise a remote search of the untrimmed query is issued with the user's coordinates and the display is kept. A search is issued exactly in that last case |
| Controller.LocalDisplay | src/pages/Index.tsx:159-186 | with an empty query the display is the category's places with their multiplicities, all in the category, a permutation for 'all', and in order |
| Controller.SearchCallPassesGate | src/pages/Index.tsx:73-89 | the search the page issues passes the backend input gate exactly when neither coordinate is 0 |
| Controller.ApplySearchReply | src/pages/Index.tsx:91-102 | a reply with places replaces the display verbatim; a failure or a reply without places keeps it; searching ends either way; nothing else changes |
| Controller.SearchReplyIgnoresViewChoices | src/pages/Index.tsx:93-94 | the search result shown does not depend on the filter, sort or query in force when it arrives |
| Controller.SearchRoundTrip | src/pages/Index.tsx:82-96 | a successful backend search is displayed exactly as the backend built it; a failed one leaves the display as it was |
| Controller.ApplyNearbyReply | src/pages/Index.tsx:51-69 | nearby places replace both the place list and the display and re-arm the timer; otherwise only loading ends |
| Controller.NearbyThenFire | src/pages/Index.tsx:59-61 | after nearby places arrive with an empty query, the next timer shows the filtered, sorted new list |
| Controller.FirstLoad | src/pages/Index.tsx:15-29 | from the mount state, the first timer shows nothing, and after nearby places arrive the next timer shows all of them by distance with loading over |
| Controller.ApplyTransitReply | src/pages/Index.tsx:106-128 | without coordinates nothing changes; a failure empties the buses; a list replaces them; a reply without a list keeps them |
| Controller.TransitRoundTrip | src/pages/Index.tsx:119-127 | with coordinates, the page's buses equal the `buses` of the transit function's response body, success or error |
| Provider.NumberOr | supabase/functions/fetch-place-search/index.ts:77 | a present non-zero number is kept; a missing or zero one gives the fallback |
| Provider.PhotoUrlWidthsDiffer | supabase/functions/fetch-place-search/index.ts:71-76 | the full-size and thumbnail URLs of a photo differ |
| PlaceSearch.ClassifySearch | supabase/functions/fetch-place-search/index.ts:46-54 | Temple exactly when a worship tag is present; Tourist Spot exactly when no tag of the table is present |
| PlaceSearch.ClassifySearchIsTable | supabase/functions/fetch-place-search/index.ts:46-54 | the classifier is the first match in the priority table worship, museum, park, monument |
| PlaceSearch.ClassifySearchUsesTagSet | supabase/functions/fetch-place-search/index.ts:46-54 | the category depends only on which tags occur |
| PlaceSearch.NormaliseSearchPlace | supabase/functions/fetch-place-search/index.ts:56-82 | each field of the place record: id, name and location copied; category from the tags (none counts as empty); address or ""; distance from the user; photo URLs or the fallback image, distinct exactly when there is a photo; rating or 4.0, never 0; timings from the open flag or "Hours not available"; fee "Contact for details" (NaN key) |
| PlaceSearch.NormaliseAll | supabase/functions/fetch-place-search/index.ts:56-82 | one place per result, in result order |
| PlaceSearch.Search | supabase/functions/fetch-place-search/index.ts:16-89 | a missing query or coordinate is refused first; then any status other than OK or ZERO_RESULTS is an API error; otherwise one normalised place per result, in order |
| PlaceSearch.ZeroCoordinateRejected | supabase/functions/fetch-place-search/index.ts:20-22 | a latitude or longitude of 0 is refused as missing |
| PlaceSearch.SearchFeesAreNaN | supabase/functions/fetch-place-search/index.ts:81 | every searched place has a fee whose sort key is NaN |
| NearbyPlaces.ClassifyNearby | supabase/functions/fetch-nearby-places/index.ts:45-49 | Temple exactly when `hindu_temple` is among the tags |
| NearbyPlaces.ClassifyNearbyIsTable | supabase/functions/fetch-nearby-places/index.ts:45-49 | the classifier is the first match in the priority table hindu_temple, museum, monument, park |
| NearbyPlaces.ClassifiersDiffer | supabase/functions/fetch-nearby-places/index.ts:45-49 | park with monument and a church are classified differently by the nearby and the search functions |
| NearbyPlaces.RoundTenth | supabase/functions/fetch-nearby-places/index.ts:70 | the rounded distance is a whole number of tenths within half a tenth of the exact one |
| NearbyPlaces.RoundTenthIdempotent | supabase/functions/fetch-nearby-places/index.ts:70 | rounding a rounded distance changes nothing |
| NearbyPlaces.RoundTenthMonotone | supabase/functions/fetch-nearby-places/index.ts:70 | rounding never reverses the order of two distances |
| NearbyPlaces.NormaliseNearbyPlace | supabase/functions/fetch-nearby-places/index.ts:33-76 | each field: id, name, location copied; category from this function's table; vicinity or "No description available"; rounded distance; photo URLs only for a non-empty reference, else the placeholder; rating or 0; "Open Now" exactly when open_now is true, else "Closed"; fee with NaN key |
| NearbyPlaces.NormaliseAll | supabase/functions/fetch-nearby-places/index.ts:33-77 | one place per result, in result order |
| NearbyPlaces.Nearby | supabase/functions/fetch-nearby-places/index.ts:16-83 | a status other than OK or ZERO_RESULTS is an API error; a result without `types` fails the whole call; otherwise one place per result, in order |
| NearbyPlaces.NearbyDistancesInTenths | supabase/functions/fetch-nearby-places/index.ts:70 | every returned distance is a whole number of tenths of a km |
| TransitRoutes.BusTypeOf | supabase/functions/fetch-transit-routes/index.ts:46-49 | Express exactly for a BUS whose vehicle name contains "Express"; Non-AC otherwise; never AC or Luxury |
| TransitRoutes.ParseBusIdRoundTrip | supabase/functions/fetch-transit-routes/index.ts:52 | the id "route-step" reads back as its two indices |
| TransitRoutes.BusIdInjective | supabase/functions/fetch-transit-routes/index.ts:52 | different index pairs give different ids |
| TransitRoutes.TransitSteps | supabase/functions/fetch-transit-routes/index.ts:40-41 | the filter has as many entries as the leg has TRANSIT steps, every kept step is a TRANSIT step of the leg, and each has details when the leg is readable |
| TransitRoutes.TransitStepsSingle | supabase/functions/fetch-transit-routes/index.ts:40-41 | one step is kept exactly when its travel mode is TRANSIT |
| TransitRoutes.TransitStepsAppend | supabase/functions/fetch-transit-routes/index.ts:40-41 | filtering a joined leg is filtering each part and joining: with the one-step case, the filter keeps the TRANSIT steps in leg order, each as often as it occurs |
| TransitRoutes.TransitStepsComplete | supabase/functions/fetch-transit-routes/index.ts:40-41 | every TRANSIT step of the leg is kept by the filter |
| TransitRoutes.StepHits | supabase/functions/fetch-transit-routes/index.ts:40-43 | hit k is the k-th TRANSIT step of the leg, numbered consecutively from the given start |
| TransitRoutes.RouteHits | supabase/functions/fetch-transit-routes/index.ts:39-62 | as many hits as there are TRANSIT steps in the routes' first legs, each carrying a TRANSIT step of its own route's first leg, in strict route-then-step order |
| TransitRoutes.MakeBus | supabase/functions/fetch-transit-routes/index.ts:51-60 | each bus field: id from the indices, number short name or else name, name or "Local Bus", type from the vehicle, times copied, the drawn fare, "from - to" route |
| TransitRoutes.RouteHitsAt | supabase/functions/fetch-transit-routes/index.ts:39-43 | hit j of route i sits right after the hits of every earlier route (at their TRANSIT-step count plus j) and carries the j-th TRANSIT step of that route's first leg |
| TransitRoutes.BusesAt | supabase/functions/fetch-transit-routes/index.ts:39-60 | bus j of route i sits right after every earlier route's buses, is built from the j-th TRANSIT step of the route's first leg and has id "i-j" |
| TransitRoutes.Buses | supabase/functions/fetch-transit-routes/index.ts:39-62 | one bus per TRANSIT step of each route's first leg, in order |
| TransitRoutes.FetchTransit | supabase/functions/fetch-transit-routes/index.ts:27-68 | ZERO_RESULTS is an empty list; other non-OK statuses are "Google API error: status"; a route without a first leg or a TRANSIT step without details is a TypeError; otherwise exactly the flattened `Buses` list, one bus per TRANSIT step, each Express or Non-AC with a fare from 20 to 70 |
| TransitRoutes.TransitIdsDistinct | supabase/functions/fetch-transit-routes/index.ts:39-62 | no two buses of one response share an id |
| TransitRoutes.ResponseBuses | supabase/functions/fetch-transit-routes/index.ts:66-75 | the response body carries the buses on success and an empty list on error |
| PlaceDetails.PhotoUrls | supabase/functions/fetch-place-details/index.ts:35-37 | at most the first five photos, each as its 800-wide URL; none without photos |
| PlaceDetails.Reviews | supabase/functions/fetch-place-details/index.ts:53-58 | at most the first three reviews, each field renamed; none without reviews |
| PlaceDetails.Timings | supabase/functions/fetch-place-details/index.ts:39-45 | weekly hours joined by ", " take precedence; then the open flag; then "Hours not available" |
| PlaceDetails.FetchDetails | supabase/functions/fetch-place-details/index.ts:27-65 | only status OK succeeds; then name, address and location copied, at most 5 photos and 3 reviews, phone or "Not available", website or null, rating or 0 |
| PlaceDetails.DetailsRejectsZeroResults | supabase/functions/fetch-place-details/index.ts:27-30 | ZERO_RESULTS is an error for details, unlike for the list functions |
| PlaceDetails.WeeklyHoursWin | supabase/functions/fetch-place-details/index.ts:41-45 | once a weekday array is present the open flag never changes the timings text, and a single weekly-hours line is that text |
| PlaceDetails.EmptyWeeklyHoursBlank | supabase/functions/fetch-place-details/index.ts:41-42 | an empty weekday array is truthy, so the timings text is "" and differs from what the open flag alone would give |
| LocationName.ScanStep | supabase/functions/fetch-location-name/index.ts:42-52 | one component changes at most one of city, state and country |
| LocationName.ScanAppend | supabase/functions/fetch-location-name/index.ts:42-52 | scanning one more component is one more loop step |
| LocationName.LocalityOverwrites | supabase/functions/fetch-location-name/index.ts:43-44 | a locality component sets the city whatever came before |
| LocationName.Level2OnlyFillsEmptyCity | supabase/functions/fetch-location-name/index.ts:45-46 | a level-2 component does not replace a city already found |
| LocationName.LastLocalityWins | supabase/functions/fetch-location-name/index.ts:42-52 | the city is the last locality's non-empty long name, whatever level-2 components surround it |
| LocationName.NoLocalityUsesFirstLevel2 | supabase/functions/fetch-location-name/index.ts:42-52 | without a locality the city is the first non-empty level-2 name |
| LocationName.StateIsLastLevel1 | supabase/functions/fetch-location-name/index.ts:47-48 | when level-1 components carry no city tag, the state is the last one's short name |
| LocationName.CountryIsLastCountry | supabase/functions/fetch-location-name/index.ts:49-50 | when country components carry no other tag of the chain, the country is the last one's short name |
| LocationName.DisplayName | supabase/functions/fetch-location-name/index.ts:55-57 | never empty: "city, state", or "city, country" without a state; without a city the formatted address, else "Unknown location" |
| LocationName.FetchLocationName | supabase/functions/fetch-location-name/index.ts:16-64 | a zero or missing coordinate is refused; any status but OK is an API error; no result gives "Unknown location"; otherwise the name of the first result and its full address |
| LocationName.OnlyFirstResultScanned | supabase/functions/fetch-location-name/index.ts:39-40 | later results never change the response |
| Gallery.Previous | src/components/ImageGallery.tsx:14-18 | moves back one image except on the first image or when closed |
| Gallery.Next | src/components/ImageGallery.tsx:20-24 | moves forward one image except on the last image or when closed, and stays on an existing image |
| Gallery.Step | src/components/ImageGallery.tsx:26-63 | a thumbnail click opens that image; the close button and any dialog dismissal, Escape included, close; keys reaching `handleKeyDown` other than the arrows do nothing; nothing but a click opens; the cursor stays on an existing image |
| Gallery.ArrowKeysAreButtons | src/components/ImageGallery.tsx:26-29 | the left and right arrow keys act exactly like the previous and next buttons |
| Gallery.RunKeepsValid | src/components/ImageGallery.tsx:12-63 | any sequence of user events keeps the lightbox on an existing image |
| Gallery.NavigationInverse | src/components/ImageGallery.tsx:14-24 | next undoes previous and previous undoes next wherever each moves |
| Gallery.Render | src/components/ImageGallery.tsx:68-92 | closed shows nothing; open shows the counter "i+1 / n" and image i |
| Gallery.ButtonsShownIffTheyMove | src/components/ImageGallery.tsx:73-104 | each arrow button is shown exactly when pressing it would move the cursor |
| Text.TrimEmptyIffBlank | src/pages/Index.tsx:74 | a query trims to empty exactly when it is all JavaScript whitespace |
| Text.DecimalRoundTrip | src/pages/Index.tsx:178-179 | `parseInt` of a number's decimal digits gives the number back |
| Text.DecimalValueAppend | src/pages/Index.tsx:178-179 | the value of two digit strings joined is the first shifted past the second plus the second |
| Text.KeepDigitsAppend | src/pages/Index.tsx:178-179 | removing non-digits from a concatenation concatenates the digits of the parts |
| Text.KeepDigitsEmpty | src/pages/Index.tsx:178-179 | removing non-digits leaves nothing exactly when there was no digit |
| Seed.SampleFeeKeys | src/lib/mockData.ts:16-65 | the sample fees "Free", "₹50", "₹10", "₹50" key as 0, 50, 10, 50 |
| Seed.ContactFeeIsNaN | supabase/functions/fetch-place-search/index.ts:81 | the backend fee text "Contact for details" keys as NaN |
| Seed.LowerCaseFreeIsNaN | src/pages/Index.tsx:178 | "free" in lower case keys as NaN, not 0 |
| Seed.RangeFeeConcatenatesDigits | src/pages/Index.tsx:178 | "₹10-20" keys as 1020 |
| Seed.SampleByDistance | src/lib/mockData.ts:4-67 | the sample sorted by distance with filter 'all' is palace, Meenakshi, museum, Brihadeeswarar |
| Seed.SampleByEntryFee | src/lib/mockData.ts:4-67 | the sample sorted by fee is Meenakshi (free), museum (10), Brihadeeswarar and palace (both 50, input order kept) |
| Seed.SampleTemplesByRating | src/lib/mockData.ts:4-67 | the temples of the sample sorted by rating are Brihadeeswarar (4.9) then Meenakshi (4.8) |

## Left out

- The Haversine trigonometry is a `DistanceFn` parameter. Dafny has no trigonometry and the distance is only copied or rounded.
- The fare `Math.round(Math.random() * 50 + 20)` is a `FareFn` parameter. Randomness is not modelled, and its range is the precondition `FaresInRange`.
- TransitRoutes.FetchTransit: requires `FaresInRange`. It states the range the random draw can produce instead of modelling the draw.
- HTTP handling is not modelled, because it is I/O around the pure logic:
  - `serve`, CORS preflight, `req.json()`, `fetch` of the provider URL, the environment API key, response status codes and `console` logging;
  - request URLs and their query parameters. This includes the `radius` the page sends, which only affects the provider.
- Provider replies are decoded records, not JSON. Fields the code reads without a guard are assumed present: `geometry.location`, `place_id`, `name`, the transit times and stop names. A missing transit line name is modelled as "".
- Numbers are mathematical reals and naturals:
  - Floating-point rounding, NaN ratings and distances, and `-0` are not modelled.
  - `parseInt` precision loss on very long digit strings is not modelled.
  - NearbyPlaces.RoundTenth: a real-arithmetic model of `Math.round(d * 10) / 10`. It ignores binary floating-point error in the product and the quotient.
- `toFixed(2)`, used by the client-side location-name fallback, is not modelled. The page's `fetchLocationName` wrapper is left out with it. The backend location-name function is modelled.
- Runtime TypeErrors (nearby index.ts:46 on a result without `types`; transit index.ts:40 and 43 on a route without legs or a TRANSIT step without details) are returned with the engine's own message, such as "Cannot read properties of undefined (reading 'includes')". The model does not know that text and uses the placeholder `TYPE_ERROR`.
- Discovery.InsertionSort: with NaN and numeric fee keys mixed, the order the engine's `sort` produces is implementation-defined (V8's binary insertion can move a numeric place past a NaN one); the model's order is one linear insertion from the right. The backend never produces such a mix, since every fee it returns is "Contact for details".
- Geolocation (`navigator.geolocation`), the 500 ms timer's wall-clock time, and toasts are left out. The timer is the `armed` flag.
- The React rendering of the page, cards, filter bar, dialogs and place-details view is left out. Only the lightbox's counter, arrows and image (`Gallery.Render`) are modelled. `selectedPlace` and `isDetailsOpen` are left out too.
- `mockBuses`, `Trip` and `ViewMode` are left out. Nothing in the modelled logic reads them.
- Gallery.Step: the Escape key and a click outside are not `KeyDown` events; they reach the gallery as the dialog's `onOpenChange` and are the `Close` event. The dialog's `onOpenChange` is modelled as a close. Radix invokes it only on dismissal, so the model does not cover an open request through it.
- PlaceSearch.NormaliseSearchPlace: an `open_now` of `null` is not modelled. The decoded flag is either present or absent.
- Sample place descriptions are shortened in `Seed`. No sorted or filtered property depends on them.
