# Museum collection proxy: paging and result shaping

This project models in Dafny the core of a small Express proxy in front of a
museum's public collection service (`index.js`), together with the browser
script of its collection page (`public/funciones.js`). It covers:

- **Page parameters.** `parseInt(req.query.page) || 1` reads the page number.
  The offset `(page - 1) * limit` and `ids.slice(offset, offset + limit)` then
  choose the IDs of a page, and `Math.ceil(count / limit)` gives the page
  count. The limit is 20 for `/search`, 10 for `/results` and 20 in the
  browser.
- **The `/search` handler.** It builds the search URL by appending only the
  filters that are set. An empty answer gives the "no results" view. For each
  ID of the page it fetches the object and translates its title, culture and
  dynasty when they are present. Objects that failed or have no primary image
  are dropped, and the page count comes from the service's `total`.
- **The `/results` handler.** It shows one page of a full ID list. A 404 on
  one object drops that object; any other failure fails the request.
- **The additional-images route.** It answers with an object's list of extra
  images, or `[]`.
- **The browser navigator.** It holds `currentPage`, `totalPages` and
  `allObjectIDs`. It loads the ID list once, loads a page into the grid, steps
  forward and back with guarded handlers, and sets the `disabled` flags of the
  two buttons. It also covers the card placeholders and the modal that lists
  additional images.

Fetches, the translator and the search endpoint are function parameters:
`ObjectID -> Fetched`, `string -> Option<string>` and `string -> SearchReply`.
A value that is `undefined` or `null` in JavaScript is `None`. JavaScript's
`||`, truthiness, `slice` (negative arguments count from the end, then
clamping) and `parseInt` are written out in the modules `Js` and `JsNumber`.

The handlers and the navigator change state step by step, so they are
methods. The object translation is `EnrichObject`, `Promise.all` is a loop in
`SettleAll`, `FetchPage` and `LoadObjects`, the `filter` is `FilterKept`, and
the `forEach` loops are `DrawCards` and `ShowAdditionalImages`. The navigator and the
modal are classes whose fields the handlers update. Each method is proved
equal to a specification function, or to explicit new field values, and the
paging, filtering and navigation properties are proved as lemmas about those
functions.

Four behaviours of the code a reader might not expect; the model follows the code:

- **A negative page number is kept.** Only `NaN` and 0 become 1. A negative
  page reaches `slice` with a negative start and shows IDs from the end of
  the list (`Paging.NegativePageCountsFromEnd`).
- **A failed translation drops the object.** In `/search`, a translation
  that throws sends the whole object to the `catch` and drops it; the
  untranslated text is not kept (`Enrichment.Enriched`).
- **Fetch failures on the additional-images route.** Any failure, a 404
  included, answers 500. The browser cannot parse that text body as JSON, so
  the modal is left as it was (`Client.ModalForObject`).
- **Order is kept.** The objects of a page keep the order of its IDs, because
  `Promise.all` returns results by position.

## Model

| member | source | states |
|---|---|---|
| Js.OrElse | index.js:32-34 | the `or` default is empty only when the value is missing or empty and the fallback is empty too, so a non-empty fallback always gives a non-empty string |
| Js.RelativeIndex | index.js:67 | a `slice` argument becomes a position in `0..len`: a non-negative one is capped at `len`, a negative one counts back from `len` and stops at 0 |
| Js.Slice | index.js:67 | the result is never longer than the sequence; for `0 <= start <= end` it is the run from `min(start, len)` to `min(end, len)`, and at most `end - start` long |
| Js.CeilDiv | index.js:97 | `Math.ceil(n / k)` is 0 exactly when `n` is 0 |
| Js.CeilDivBounds | index.js:97 | `Math.ceil(n / k)` blocks of `k` cover the `n` items, and one block fewer does not |
| JsNumber.TrimStart | index.js:35 | `parseInt` drops exactly the leading white space: the result is a suffix that does not start with white space, and everything before it is white space |
| JsNumber.DigitPrefixLength | index.js:35 | the digits read are the longest run of digits of the radix at the start of the text |
| JsNumber.ReadDigits | index.js:35 | there is no number (`NaN`) exactly when the text does not start with a digit |
| JsNumber.ParseDigitRun | index.js:35 | a run of decimal digits with no leading zero, after an optional minus sign, is read as its signed decimal value |
| JsNumber.ParseDecimalRoundTrip | index.js:35 | `parseInt` of the decimal text of any integer gives that integer |
| JsNumber.ParseNaN | index.js:35 | text with no digit after its white space and sign gives `NaN` |
| JsNumber.MissingParamIsNaN | index.js:35 | a missing query parameter, read as "undefined", gives `NaN` |
| Paging.PageParam | index.js:35 | the page is never 0; `NaN` and 0 give 1; any other parsed integer, negative ones included, is kept |
| Paging.PageFromQuery | index.js:133 | the page read from a query is never 0 |
| Paging.PageFromQueryDefaults | index.js:35 | a missing parameter, text with no number and "0" all give page 1; the decimal text of any other integer gives that integer |
| Paging.Offset | index.js:37 | from page 1 on, the offset is not negative |
| Paging.Window | index.js:67 | from page 1 on, a page shows at most `limit` IDs |
| Paging.WindowRange | index.js:140-144 | from page 1 on, a page is the contiguous run of the list from its offset, `limit` long, cut at the end of the list |
| Paging.PageCount | index.js:96-97 | the page count is 0 exactly when there is nothing to show |
| Paging.PageCountBounds | index.js:165-166 | the pages cover every item, and the last page starts on an item |
| Paging.WindowNonEmptyIff | public/funciones.js:30-34 | from page 1 on, a page shows at least one ID exactly when it is not past the page count; later pages are empty, not errors |
| Paging.PagesSuffix | public/funciones.js:30-34 | the pages from any page up to the last, concatenated, are the rest of the list from that page's offset |
| Paging.LastPageNumber | public/funciones.js:129 | a page whose window starts in the list and runs past its end is the last page, or the page after it when the count is a multiple of the page size |
| Paging.PagesCoverAll | public/funciones.js:129 | pages 1 to the page count, concatenated in order, are exactly the ID list: no ID is skipped or repeated |
| Paging.WindowsDisjoint | public/funciones.js:30-34 | two different pages from page 1 on cover disjoint, ordered ranges of positions |
| Paging.NegativePageCountsFromEnd | index.js:140-144 | a negative page, on a list long enough, shows the `limit` IDs that start `(1 - page) * limit` positions before the end of the list |
| SearchUrl.BuildSearchUrl | index.js:39-49 | the built URL is the search endpoint, `?`, and `hasImages=true` then `departmentId`, `q` and `geoLocation` for the filters that are set, in that order, joined by `&` |
| SearchUrl.AppendTo | index.js:41-49 | each `url +=` adds one `&key=value` field after the fields already there |
| SearchUrl.SearchUrlRoundTrip | index.js:39-49 | when no filter contains `&`, the query of the built URL reads back as exactly the parameters of the search, in order |
| SearchUrl.SearchUrlPrefix | index.js:39 | the URL always begins with the endpoint and `?hasImages=true` |
| SearchUrl.KeywordAddsParameter | index.js:44-46 | values are not encoded: a keyword `v&k=w` adds a parameter `k` with value `w` of its own after `q=v` |
| SearchUrl.SplitJoin | index.js:39-49 | splitting fields joined by a separator none of them contains gives the fields back |
| SearchUrl.ParseFieldOf | index.js:42-48 | a `key=value` field whose key has no `=` reads back as that key and value |
| Enrichment.Enriched | index.js:74-87 | the object survives exactly when every translation attempted succeeds; title, culture and dynasty are replaced by their translations exactly when they are present and non-empty; every other field is unchanged |
| Enrichment.EnrichObject | index.js:71-87 | translating and writing the three fields one after the other, stopping at the first failure, gives the enriched object |
| Enrichment.SearchItem | index.js:68-91 | a callback gives an object only when the fetch found it, and then gives the enriched object; a 404 and any other failure give `null` |
| Enrichment.Settle | index.js:68-92 | the settled results are one per ID, in ID order |
| Enrichment.KeepWithImage | index.js:94 | an object is kept exactly when it loaded and has a non-empty primary image, and there are never more objects than results |
| Enrichment.KeepAppend | index.js:94 | filtering two runs of results one after the other is filtering their concatenation |
| Enrichment.SearchObjectsSplit | index.js:67-94 | the output is the output of the IDs before position k, then ID k's object if it is kept, then the output of the IDs after it |
| Enrichment.DroppedIdIsInvisible | index.js:88-94 | an ID whose fetch or translation fails, or whose object has no primary image, leaves the page as if it were absent; the other IDs are unaffected |
| Enrichment.SearchObjectsOrigin | index.js:74-94 | every object shown has a primary image and is the enriched object of one of the page's IDs |
| Server.FilterOf | index.js:32-34 | each filter is its query parameter's value when that is present and non-empty, and "" otherwise |
| Server.Search | index.js:30-111 | a failed search call answers 500 with the service's message; no IDs gives the "no results" view with 0 pages; otherwise the view shows the page's surviving objects, the page number and `ceil(total / 20)` pages |
| Server.ResultsView | index.js:67-97 | the view of a search with results shows the objects of the page's IDs and `ceil(total / 20)` pages, with a missing total counted as 0 |
| Server.SettleAll | index.js:68-92 | fetching and enriching the page's IDs one by one gives the settled results in ID order |
| Server.FilterKept | index.js:94 | the `filter` loop keeps exactly the loaded objects with a primary image, in order |
| Server.Fetches | index.js:146-160 | the settled fetches of `/results` are one per ID, in ID order |
| Server.FoundObjects | index.js:163 | an object is shown exactly when it was found, and there are never more objects than fetches |
| Server.FoundObjectsAppend | index.js:163 | filtering two runs of fetches one after the other is filtering their concatenation |
| Server.Results | index.js:132-176 | a page with a non-404 failure answers 500; otherwise the view shows the objects found on the page, the page number and `ceil(len / 10)` pages |
| Server.FetchPage | index.js:146-163 | the fetch loop gives no objects when some fetch failed with anything but a 404, and otherwise the found objects in order |
| Server.FetchStep | index.js:146-163 | one more fetch fails the page exactly when it failed, and adds its object exactly when it was found |
| Server.NotFoundDropsOnlyThatId | index.js:146-163 | a 404 on ID k neither fails the page nor changes the objects shown for the other IDs or their order |
| Server.NotFoundIsSkipped | index.js:152-154 | a 404 among the settled fetches neither fails the page nor adds an object |
| Server.AdditionalImages | index.js:114-129 | the answer is JSON exactly when the object was fetched: its list when present and non-empty, `[]` otherwise; any fetch failure, 404 included, answers 500 |
| Client.GetAllObjects | public/funciones.js:12-25 | the ID list when the reply is `ok`, is JSON and has `objectIDs`; `[]` on a network failure, a bad status, a body that is not JSON or a missing list |
| Client.FetchAll | public/funciones.js:45-51 | `Promise.all` succeeds exactly when every fetch does, and then gives one object per ID in ID order |
| Client.LoadObjects | public/funciones.js:45-51 | fetching the page's IDs one by one gives the `Promise.all` result |
| Client.CardOf | public/funciones.js:65-71 | each card field shows the object's value when present and non-empty, and otherwise the default picture, "Sin título" or "Desconocida"; the alt text is the shown title; no field of a card is empty |
| Client.Cards | public/funciones.js:62-74 | one card per object, in order |
| Client.GridOf | public/funciones.js:36-74 | after a load the grid is empty when the fetches rejected, holds the "no objects" paragraph alone for a page with no IDs, and otherwise one card per object in order |
| Client.LoadedGridShape | public/funciones.js:30-59 | when the fetches succeed, the grid shows the "no objects" paragraph exactly when the page is past the last one, and otherwise one card per ID of the page, at most 20 |
| Client.Navigator.constructor | public/funciones.js:6-9 | the script starts on page 1 with no pages and no IDs, and the state is valid |
| Client.Navigator.LoadPage | public/funciones.js:28-83 | without a grid nothing changes; otherwise the grid shows the page's objects, and the flags are recomputed only when cards were drawn; each button is then disabled exactly when its handler would do nothing |
| Client.Navigator.DrawCards | public/funciones.js:62-74 | the `forEach` appends one card per object, in order, after what the grid held |
| Client.Navigator.InitPagination | public/funciones.js:121-137 | the ID list is what the server delivered and the page count is `ceil(len / 20)`; an empty list changes nothing else; otherwise page 1 is loaded; the state stays valid |
| Client.Navigator.Next | public/funciones.js:142-148 | the page moves forward and is loaded only when it is before the last page, and nothing changes otherwise; `1 <= currentPage <= max(1, totalPages)` is kept |
| Client.Navigator.Prev | public/funciones.js:150-156 | the page moves back and is loaded only when it is after page 1, and nothing changes otherwise; `1 <= currentPage <= max(1, totalPages)` is kept |
| Client.ImagesView | public/funciones.js:97-110 | an empty list shows the "no images" paragraph alone; otherwise there is one picture per URL, in list order |
| Client.ImagesViewShowsList | public/funciones.js:102-110 | every picture shown comes from the list, and every URL of the list is shown |
| Client.ImageModal.ShowAdditionalImages | public/funciones.js:91-116 | a rejected fetch changes nothing; otherwise the container is cleared; a value whose `length` is 0, an empty array or not, gets the "no images" paragraph and the modal is shown; a non-empty list is drawn and the modal is shown; any other value leaves the container empty and the modal as it was |
| Client.ModalForObject | public/funciones.js:92-113 | clicking a card shows one picture per additional image when the object has some, the "no images" paragraph when it has none, and leaves the modal as it was when the object cannot be fetched |

## Left out

- HTTP and Express are not modelled: routing, `res.render`, `res.json`, `res.status` and `app.listen`. A handler's answer is a `Response` value.
- The `/` route, which lists the departments, is only a fetch and a render.
- The calls to the collection service, the search endpoint and the translator are function parameters. The model assumes the same call gives the same answer within one request.
- Concurrency is not modelled. The `Promise.all` fan-out is a sequential loop. Its result order is positional, so it is unaffected. In the browser, a `loadPage` still awaiting its fetches could interleave with a later click; that interleaving is not modelled.
- The DOM is reduced to the values the script writes. The HTML markup of a card, the `onerror` handler that hides a broken image and the background image are left out. Closing the modal and the registration of event listeners (`assignModalEvent`) are left out too.
- Logging (`console.log`, `console.error`) is left out.
- Server.Results: the server file calls `getAllObjectsFromAPI` without defining or importing it. The call therefore throws inside the `try`, and as written every `/results` request answers 500. The model takes the full ID list as a parameter instead.
- The browser's routes `/api/objects` and `/object/:id` are not part of this model. Their answers are the `IdsReply` and `fetchObject` parameters. `index.js` defines neither route, so against this server `getAllObjectsFromAPI` gets a 404 and returns `[]`, and `initPagination` stops before loading a page.
- JsNumber.ParseInt: white space is limited to the ASCII spaces and a few Unicode ones. Numbers are read as unbounded integers, so very long digit runs are not rounded to floating point.
- A query parameter given twice arrives in Express as an array. That case, and other non-string query values, are not modelled.
- SearchUrl.ParseQuery: the query reader does not percent-decode. The URL builder itself does not encode either.
- Client.Navigator.LoadPage: an object body that is JSON but not an object record is not modelled. The `fetchObject` parameter gives a record or a rejection.

