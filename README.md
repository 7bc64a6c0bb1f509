# API explorer front-end: a Dafny model

This project models the browser-side logic of a small API front-end with three pages:

- **The API explorer** (`script.js`) takes a URL or a `/path` typed by the user and fetches it. It renders whatever JSON comes back as a list of typed display items, next to a raw JSON view. It also picks up a URL handed over from the docs page when the page loads.
- **The events page** (`events.js`) loads a list of events and annotates each one: is it a holiday, is it upcoming, does it fall in the current year. It sorts them by date, filters them by category and by a search term, shows them twelve at a time behind a "load more" button, and keeps three counters.
- **The docs page** (`docs.js`) probes candidate backends for a `/__endpoints` listing, one after another. It turns each endpoint descriptor into a card whose "Test API" button hands the endpoint's URL to the explorer.

The modules follow the program's structure:

- `Wrappers`: `Option`.
- `Text`: the JavaScript string operations the pages use:
  - `trim` and `startsWith`;
  - `includes`;
  - `toLowerCase` and `toUpperCase`;
  - the decimal text of numbers.
- `Json`: JSON values, and how JavaScript reads them:
  - property reads and truthiness;
  - `String(v)` and `textContent`;
  - `JSON.stringify(v, null, 2)`.
- `Http`: the reply a `fetch` gets. It is a network failure, or a response with `ok`, a status, a reason text and a body that did or did not parse as JSON.
- `Renderer`: `getTypeIcon`, `renderDataItem` and `renderData`.
- `Handoff`: the session-storage slot `apiToTest` between the docs page and the explorer.
- `Explorer`: input normalisation, the error texts, and the page state that `fetchAPI` updates, as the class `Explorer`.
- `Events`: the annotation, sort, filter, pagination, card texts, counters and load check of `EventsManager`. The class keeps the manager's fields and methods.
- `Docs`: the default base, the candidate list, the probe loop, the endpoint card and the listing outcome.

The network, the clock and the URL parser are parameters:

- a `Reply`, or a function from URL to `Reply`;
- a `Clock`;
- a predicate `isValidUrl`.

Where the code can throw, the model has an explicit error outcome. Examples are reading a property of `null` and calling `toUpperCase` on a number.

### Behaviour of the code that is easy to misread

The model follows what the code does in each case:

- **When the `data` field is unwrapped.** The comment at `script.js:172` speaks of a response that "has a 'data' property". The test at `script.js:174` is truthiness, so a `data` of `0`, `""`, `false` or `null` is not unwrapped (`Renderer.FalsyDataNotUnwrapped`).
- **When the raw view is updated.** `renderData` writes the raw JSON view as its last statement (`script.js:208-209`). A render that throws before that leaves the previous raw view on screen (`Explorer.RawViewFollowsCompletedRender`).
- **`success: false`.** The explorer's `fetchAPI` never reads `success` and renders such a body like any other. Of the modelled pages, only the events page checks it (`events.js:66`).

## Model

| member | source | states |
|---|---|---|
| Text.TrimIsInfix | script.js:216 | `trim` returns a contiguous piece of its input; only whitespace is cut on either side, and the result neither starts nor ends with whitespace |
| Text.TrimIdempotent | script.js:216 | trimming twice is trimming once |
| Text.TrimEmptyIff | script.js:216-222 | the trimmed input is empty exactly when the input is all whitespace |
| Text.ContainsIff | script.js:272 | `includes` holds exactly when the pattern occurs at some position |
| Text.ContainsAfterForeignPrefix | script.js:272 | a prefix without the pattern's first character neither creates nor hides an occurrence |
| Text.LowerIdempotent | events.js:129 | `toLowerCase` is idempotent, so a stored search term is already lower-case |
| Text.LowerOfUpperText | events.js:162-163 | lower-casing after upper-casing is lower-casing |
| Text.UpperIdempotent | docs.js:38 | `toUpperCase` is idempotent |
| Text.NatTextRoundTrip | script.js:134 | the decimal text of a count reads back as the count |
| Text.NatTextInjective | script.js:185 | different numbers have different decimal texts, so section labels differ |
| Json.LookupFinds | script.js:174 | a property read finds a value exactly when some entry has that key, and then it is that entry's value |
| Renderer.TypeIconCases | script.js:76-96 | the link icon exactly for `http…` strings; the text icon exactly for other strings; the list icon exactly for arrays; the box icon exactly for objects and `null` |
| Renderer.IconNamesKind | script.js:76-96 | the six icons are pairwise different |
| Renderer.TitleEmphasis | script.js:112-115 | an item is emphasised exactly when its key spells `title` in any mix of cases |
| Renderer.ViewAgreesWithIcon | script.js:107-156 | the value's view matches its icon; `null` shows empty text under the box icon |
| Renderer.UrlShownAsLink | script.js:118-126 | an `http…` string is a link to itself, showing itself |
| Renderer.ArrayView | script.js:127-141 | an empty array shows the placeholder; otherwise `Array (N items)`, where N reads back as the length, above the array's JSON |
| Renderer.AppendSections | script.js:179-196 | the loop over an array appends every section in order, or stops after the header of the first `null` element |
| Renderer.RenderData | script.js:167-210 | `renderData` produces exactly the specified nodes and raw view, or the specified partial output and error |
| Renderer.RenderArray | script.js:179-196 | an array without `null` elements gives the headers `Item 1` … `Item n`, in order |
| Renderer.NullElementAborts | script.js:188-190 | a `null` element throws after its own header; the headers up to it are already shown |
| Renderer.UnwrapOneLevel | script.js:171-176 | an object with a truthy `data` object renders that object's entries, and only one level is unwrapped |
| Renderer.FalsyDataNotUnwrapped | script.js:174 | a missing or falsy `data` leaves the response itself to be rendered |
| Renderer.ScalarGivesResult | script.js:204-206 | a scalar renders as one item labelled `Result` |
| Renderer.RawViewIsOriginal | script.js:209 | the raw view is the JSON of the response before unwrapping |
| Renderer.WrappedExample | script.js:167-210 | a wrapped object with title, url, empty tags and a small meta object gives four items, with the expected emphasis, link, placeholder and `Object` JSON |
| Renderer.BareArrayExample | script.js:179-196 | a bare array of two objects gives two numbered sections, each with its `x` item |
| Handoff.TestButtonClick | docs.js:8-19 | a click stores the URL and navigates exactly when `data-url` is non-empty; otherwise nothing changes |
| Handoff.TakeOnLoad | script.js:359-372 | a stored non-empty URL is taken and removed; an empty or absent one is ignored and left |
| Handoff.HandoffDeliveredOnce | script.js:359-372 | a clicked URL is fetched by the next explorer load and not by the one after |
| Explorer.NormalizeInput | script.js:215-232 | a request is sent only to a valid URL, namely the trimmed input with `/paths` put after the local base |
| Explorer.NormalizeInputRefusals | script.js:216-232 | the empty-input message appears exactly for all-whitespace input; the invalid-URL message exactly for other input that does not resolve to a valid URL |
| Explorer.NormalizeInputIdempotent | script.js:215-232 | re-submitting the URL a request went to sends the same request |
| Explorer.ResolveIdempotent | script.js:224-227 | resolving trimmed text gives trimmed text that no longer starts with `/`, so resolving it again changes nothing |
| Explorer.FailureMessage | script.js:266-281 | every failure message starts with the connect-failure prefix, followed by the checklist for `Failed to fetch` and by the error text otherwise |
| Explorer.HttpFailureQuoted | script.js:248-250 | an HTTP failure is shown with its status and reason, unless the reason itself says `Failed to fetch` |
| Explorer.ReplyError | script.js:238-253 | a reply raises no error before rendering exactly when it is an ok response whose body parsed |
| Explorer.FetchSendsOnlyValidUrls | script.js:215-253 | one call sends at most one request, and only to a valid URL |
| Explorer.RefusedInputOnlyShowsMessage | script.js:219-232 | refused input shows one of the two messages and changes nothing else |
| Explorer.RawViewFollowsCompletedRender | script.js:256-264 | the raw view changes only when a render completed; it then shows the stored data's JSON and the results panel is up |
| Explorer.ParsedBodyAlwaysStored | script.js:253-256 | an ok parsed body becomes the current data, even when rendering it throws |
| Explorer.Explorer.constructor | script.js:5-14 | the page starts idle, with nothing shown or stored |
| Explorer.Explorer.FetchApi | script.js:215-282 | `fetchAPI` leaves the page in the specified state |
| Explorer.Explorer.ShowReply | script.js:238-281 | the reply's effect on the page is as specified |
| Explorer.Explorer.ShowOutcome | script.js:259-264 | the render outcome's effect on the page is as specified |
| Explorer.Explorer.OpenFromDocs | script.js:359-372 | on load, a handed-over URL is put in the input box and fetched, and the slot is cleared; otherwise the page is unchanged |
| Events.HolidayTitleIff | events.js:90-91 | a title marks a holiday exactly when one of the four markers occurs in it |
| Events.HolidayTitleInContext | events.js:90-91 | text around a holiday title keeps it a holiday title |
| Events.ToEvent | events.js:86-93 | the event keeps the element's title, the text of its description, its date read by the clock and its `lasting` minutes; the flags agree with them: holiday marker, after now, same year as now |
| Events.FirstElementError | events.js:85-91 | annotation throws exactly when some element is `null` or lacks a string title, with that element's error |
| Events.InsertAdds | events.js:101 | inserting adds exactly the one event |
| Events.InsertSorted | events.js:101 | inserting into a date-sorted list keeps it sorted |
| Events.SortSorted | events.js:101 | the sorted events are in date order |
| Events.SortPermutes | events.js:101 | sorting is a permutation |
| Events.SortStable | events.js:101 | events on the same date keep their relative order (the sort is stable) |
| Events.ProcessEvents | events.js:83-102 | `processEvents` gives exactly the specified result: the first element's error, or the annotated events sorted |
| Events.AnnotateEach | events.js:85-98 | the loop annotates every element, or stops at the first faulty one with its error |
| Events.ProcessedSortedPermutation | events.js:83-102 | processed events are sorted and are a permutation of the annotated input |
| Events.TwoPassFilter | events.js:140-170 | the category pass followed by the search pass keeps exactly the events passing both tests, in order |
| Events.FilterMembership | events.js:140-170 | an event survives the filters exactly when it is in the list and passes both tests |
| Events.FilterAppend | events.js:140-170 | filtering distributes over concatenation, so order is kept |
| Events.FilterShorter | events.js:140-170 | filtering never adds events |
| Events.FilterIdempotent | events.js:140-170 | filtering a filtered list changes nothing |
| Events.FilterAllKeepsEverything | events.js:154-156 | any filter other than the three named ones, with an empty term, keeps every event |
| Events.EmptyTermKeepsAll | events.js:160 | the empty search term matches every event |
| Events.SearchIgnoresCase | events.js:162-163 | upper-casing an event's title and description does not change whether a lower-case term matches |
| Events.Shown | events.js:177-182 | the number of events shown never exceeds the number filtered |
| Events.PageExtendsPrefix | events.js:178-182 | the slice of page `k` extends the first `k` pages to the first `k + 1` |
| Events.PageSliceSize | events.js:178-180 | a page holds at most twelve events, and is empty exactly when it starts past the end |
| Events.LoadMoreIffMoreToShow | events.js:199-211 | the load-more button is visible exactly when filtered events remain unshown, and never for an empty list |
| Events.DurationTextReadsBack | events.js:218 | a positive duration shows digits that read back as it, followed by ` phút`; the text is `Cả ngày` exactly when the duration is not positive |
| Events.CardShowsEvent | events.js:214-238 | the card shows the event's title and description, `Ngày lễ` exactly for holidays, and `Cả ngày` exactly for non-positive durations |
| Events.CardNodesAppend | events.js:193-197 | cards for two lists are the cards for each, in order |
| Events.StatsAgreeWithFilters | events.js:104-112 | the holiday and upcoming counters equal the sizes of the `holiday` and `upcoming` filters, and do not exceed the total |
| Events.ByCategoryIsFilter | events.js:144-157 | the category pass alone is the filter with an empty term |
| Events.ShapeCheckIff | events.js:64-75 | a parsed ok body is refused as malformed exactly when `success`, `data` or `data.result` is falsy; it is accepted exactly when, in addition, `data.result` is an array |
| Events.LoadedOnlyFromGoodReply | events.js:54-75 | events load only from an ok, parsed, well-shaped reply whose elements all annotate; they come out sorted and a permutation of the annotated list |
| Events.EventsManager.constructor | events.js:7-17 | the manager starts with no events, filter `all`, an empty term and page 0, and its invariant holds |
| Events.EventsManager.ApplyFilters | events.js:140-170 | the filtered list is the filter of all events by the current filter and term; the shown list and the page are reset |
| Events.EventsManager.RenderEvents | events.js:177-212 | the current page's slice is appended to the shown list and to the grid; the grid is cleared on page 0; the no-events notice replaces an empty grid; the button shows exactly when more remain |
| Events.EventsManager.SetFilter | events.js:114-126 | the filter is set, the list refiltered, the first page shown (the grid holds its cards, or the no-events notice when nothing matches), and the invariant kept |
| Events.EventsManager.SetSearchTerm | events.js:128-133 | the lower-cased term is stored, the list refiltered, the first page shown (its cards, or the no-events notice), and the invariant kept |
| Events.EventsManager.ClearSearch | events.js:135-138 | the term is cleared, the list is the category filter alone, and the grid shows its first page or the no-events notice |
| Events.EventsManager.LoadMoreEvents | events.js:172-175 | the page advances; the shown list grows by that page's slice and stays a prefix of the filtered list; the grid shows the shown cards, or the no-events notice |
| Events.EventsManager.UpdateStats | events.js:104-112 | the counters become the statistics of the current events; nothing else changes |
| Events.EventsManager.FetchEvents | events.js:54-81 | a good reply replaces the events with the processed list and refreshes counters, filters and the first page (cards or the no-events notice); a failure shows its error message in the error box, hides the load-more control and keeps the lists |
| Docs.DefaultBaseIsHttps | docs.js:84-91 | the default base is always an `https` URL, and it is the page origin exactly when that origin is usable and `https` |
| Docs.CandidatesShape | docs.js:101-103 | the candidates are the usable origin, if any, followed by the fallback base; none is empty or `null` |
| Docs.FirstAccepting | docs.js:108-123 | the first candidate whose probe is ok and parses to an array, with every earlier probe failing; or none, when every probe fails |
| Docs.Locate | docs.js:108-123 | the probe loop finds the specified backend and issues exactly the specified probes |
| Docs.ProbesStopAtFirstSuccess | docs.js:108-123 | probes go out in candidate order; every probe but the last failed; a backend is found exactly when the last probe succeeded |
| Docs.FirstAcceptingAt | docs.js:114-117 | a candidate that accepts after only failures is the one found |
| Docs.FirstAcceptingNone | docs.js:119-122 | when every probe fails, no backend is found |
| Docs.CardFields | docs.js:24-82 | badge and title are the title or else the path; the method is the given one in upper case (same letters up to case), `GET` when missing; the test URL is exactly the base (or the default base) followed by the path's text; the URL line shows the path; the description is the given one, empty when missing; the example appears exactly when truthy and shows its JSON |
| Docs.CardThrowsIff | docs.js:24-38 | a card cannot be built exactly for a `null` endpoint or a truthy method that is not a string |
| Docs.TestButtonAlwaysHandsOver | docs.js:46-48 | every card's test button, when clicked, stores its URL and navigates |
| Docs.CardsSpec | docs.js:132-135 | cards are built one per endpoint, in order, exactly when every endpoint yields a card |
| Docs.RenderCards | docs.js:132-135 | the card loop builds exactly the specified cards, or stops at the first endpoint that throws |
| Docs.FetchAndRenderEndpoints | docs.js:96-151 | the page ends with the specified listing, after exactly the specified probes |
| Docs.ListingCases | docs.js:125-150 | no backend gives the fallback notice; a found base is a non-empty candidate; its endpoints become cards when every card builds; an empty list gives no cards |

## Left out

- The DOM, CSS classes, inline styles, animations and button listeners are left out. Display is modelled as node and card records.
- The 300 ms and 200 ms delays, and the loading indicator, are left out. So is overlapping fetches overwriting each other: each call is modelled to completion.
- Copy-to-clipboard, the raw-view toggle and the keyboard shortcut (`script.js:287-343`) are left out. They only copy or show already-computed text.
- `info.js` is not part of this model.
- `isValidUrl` (`script.js:57-64`) wraps the browser's URL parser. It is the parameter `isValidUrl`.
- `fetch`, `response.json()` and `sessionStorage` are parameters or values: a `Reply`, a function from URL to `Reply`, and an `Option<string>` slot.
- The events page always requests the same fixed URL (`events.js:58`). The model does not record that request: `Events.EventsManager.FetchEvents` takes its reply as a parameter.
- JSON numbers are integers: floating point, `NaN` and the text of non-integral numbers are left out.
- Events.ToEvent: dates are turned into times by the total function `Clock.timeOf`, so invalid dates and their `NaN` comparisons are not modelled. `now` is read once per load rather than once per event.
- Events.ToEvent: the localised day, month and year texts (`events.js:94-97`) are left out.
- Events.LastingOf: a `lasting` that is not a number counts as 0.
- Events.ElementError: a title that is an array is treated as having no `includes`. A JavaScript array has one, and would not throw there.
- Events.SearchOk: the search reads each event's description as text. In the browser, a description that is not a string makes `toLowerCase` throw.
- Events.EventsManager.FetchEvents: on a failure after `data.data.result` was accepted, the browser has already replaced `events` with the raw result. The model keeps the old lists.
- Events.EventsManager.SetFilter: assumes a filter button with that value exists. Otherwise the browser throws after setting the filter and page, without refiltering.
- Events.EventsManager.constructor: does not start the load. Loading is the separate call `FetchEvents`.
- Docs.CardSpec: the `catch` around `JSON.stringify` is not modelled. It cannot fire for values parsed from JSON.
- Renderer.TypeIcon: the fallback icon `•` is not modelled. It cannot be reached for JSON values.
- Text.Lower and Text.Upper cover ASCII, Latin-1 and the Vietnamese letters only. They do not cover all of Unicode.
- Text.Upper: leaves `ß`, `ÿ` and `µ` unchanged, whereas `toUpperCase` gives `SS` (two characters), `Ÿ` and Greek `Μ`. Mapping them would make the result longer than the input and would break `Text.LowerOfUpperText` for `µ`, whose upper-case form lower-cases to Greek `μ`.
- The texts of thrown `TypeError`s follow the V8 engine's wording.
- The probe's `console.debug` and `console.error` logging is left out.
- The comment at `docs.js:100` names two localhost candidates. The code probes only the page origin and the fallback, and the model follows the code.
