# Supermarket discount display — data pipeline model

A Dafny model of the decision logic of a single-page view that lists discounted
supermarket products read from a public spreadsheet. The whole logic lives in
`src/App.tsx`. Its `fetchSpreadsheetData` routine works in four steps:

- It fetches the CSV export. When a response is not ok it falls back to two CORS relays.
- It hands the text to a CSV parser.
- It maps the parsed rows to product records and drops incomplete ones.
- It falls back to a built-in list of six demo products on any failure.

The view then shows one of three things: loading placeholders, an error card, or the product grid.
Each card's EAN is handed to the barcode library only when the code has exactly 13 digits
once every non-digit is removed.

Modules, one per concern of the component:

- `Products` (products.dfy): the product record and the six-item demo list.
- `Rows` (rows.dfy): the row-to-product mapping.
  - Its specification is `MapRows`, with a reference definition of the kept row indices.
  - `CollectProducts` is the source's `for` loop.
- `Barcode` (barcode.dfy): the EAN check of `generateBarcode`.
- `Fetching` (fetching.dfy): the direct / corsproxy.io / allorigins chain.
  - `FetchChain` is its specification.
  - `FetchCsv` reassigns one `response` step by step, as the source does.
- `View` (view.dfy): JavaScript `trim`, `getProductImage`, and the render precedence.
- `Dashboard` (dashboard.dfy): how a run settles (`Settle`), and the class `App`.
  - `App` holds the four state fields `products`, `loading`, `error` and `lastUpdated`.
  - Each of its methods is one of the source's state updates.
- `Wrappers` (wrappers.dfy): `Option`, standing in for `null`.

Collaborators outside the model are parameters:

- The network is `fetch: Endpoint -> Attempt`. A request either throws or answers with an ok flag and a body.
- The CSV parser is `parse: string -> ParseResult`.
- The clock is `now: int`.

Points where the code's behaviour is easy to misread:

- A fetch that throws goes straight to the catch block, so no relay is tried. Only a
  response that arrives and is not ok moves the chain on.
- The last-updated time is set only when parsing completes. It is not set on a parse error or a fetch failure.
- The fetch-failure message is "Using demo data - spreadsheet not accessible". The
  "Spreadsheet access restricted" text of the thrown error is never displayed.
- Every fallback sets an error message. A truthy message always shows the error card,
  so demo products are loaded but never rendered as a grid (`Dashboard.SettledView`).

## Model

| member | source | states |
|---|---|---|
| Products.DemoData | src/App.tsx:27-70 | the demo list has exactly six records |
| Products.DemoDataComplete | src/App.tsx:27-70 | every demo record has name, discount, image and a 13-character EAN |
| Rows.MapRowsBelow | src/App.tsx:132-146 | rows 1..n-1 yield at most n-1 products, each with non-empty name, discount and EAN |
| Rows.KeptRowsBelow | src/App.tsx:132-146 | reference: the increasing indices ≥ 1 of exactly the complete rows whose name, discount and EAN are non-empty |
| Rows.MapRowsBelowFollowsKeptRows | src/App.tsx:132-146 | the k-th product is the record of the k-th kept row, so products come from kept rows only, once each, in row order |
| Rows.MapRowsProvenance | src/App.tsx:132-141 | row 0 never yields a product; each product comes from a row at index ≥ 1 with more than 6 fields and carries its columns 1, 2, 5, 6 and 7 (or "" when 7 is absent); at most `|rows| - 1` products |
| Rows.MapRowsKeepsExactly | src/App.tsx:143-146 | a complete data row yields its product if and only if its name, discount and EAN columns are non-empty |
| Rows.MapRowsPreservesOrder | src/App.tsx:132-146 | two kept rows j1 < j2 give products at positions k1 < k2 |
| Rows.SingleRowExample | src/App.tsx:124-146 | a header plus the row `,Nutella,-2.50,,,2024-02-15,8000500037508,http://img` yields exactly that one product |
| Rows.CollectProducts | src/App.tsx:128-148 | the mapping loop pushes exactly the products of `MapRows` |
| Barcode.DigitsOnly | src/App.tsx:75 | the cleaned code holds only ASCII digits and is no longer than the input |
| Barcode.DigitsOnlyAppend | src/App.tsx:75 | cleaning distributes over concatenation: every digit is kept, in order |
| Barcode.DigitsOnlyOfDigits | src/App.tsx:75 | a string of digits is unchanged by cleaning (cleaning is idempotent) |
| Barcode.BarcodeValue | src/App.tsx:75-79 | the code is handed to the barcode library if and only if exactly 13 digits remain; the value handed over is those 13 digits; the `/^\d+$/` test never rejects |
| Barcode.NonDigitIgnored | src/App.tsx:75-76 | inserting any non-digit anywhere never changes the decision |
| Barcode.DigitStringPassesIffThirteen | src/App.tsx:75-76 | a digit string passes the check, unchanged, exactly when its length is 13 |
| Barcode.SeparatedCodePassesCheck | src/App.tsx:75-76 | "80-00500037508x" passes the check and "8000500037508" is handed over |
| Barcode.ShortCodeIsSkipped | src/App.tsx:75-76 | "12345" is skipped |
| Barcode.DemoBarcodesPassCheck | src/App.tsx:27-70 | every demo EAN passes the check and is handed over unchanged |
| Fetching.FetchChain | src/App.tsx:100-120 | the requests are a prefix of direct, corsproxy, allorigins; a relay is tried iff every earlier response was answered and not ok; text is present iff the last response was ok, and it is that response's (unwrapped) body |
| Fetching.FetchCsv | src/App.tsx:102-116 | reassigning `response` step by step gives exactly `FetchChain` |
| View.TrimStart | src/App.tsx:216 | removes exactly the leading JavaScript whitespace |
| View.TrimEnd | src/App.tsx:216 | removes exactly the trailing JavaScript whitespace |
| View.TrimEmptyIff | src/App.tsx:216 | trimming yields "" iff every character is whitespace |
| View.ProductImage | src/App.tsx:215-221 | the product's image when it has a non-whitespace character, else the fallback URL; never empty |
| View.RenderModeOf | src/App.tsx:223-299 | loading wins; then a truthy error shows the error card with that message; then an empty list shows the empty state; otherwise the grid of the products |
| Dashboard.RunOutcome | src/App.tsx:118-127 | a run ends in the fetch-failure path iff no requested response was ok; otherwise it ends parsed, with exactly the rows the parser returned for the fetched text, or in the parse-failure path when the parser reports an error |
| Dashboard.LiveDirectFetch | src/App.tsx:102-159 | an ok direct response whose text parses to rows yielding products requests no relay and settles on exactly those products, with no message and the time stamped |
| Dashboard.Settle | src/App.tsx:150-187 | live products are kept iff parsing completed with at least one product; every other ending gives the six demo products and a message naming the failed stage (three distinct messages); only a completed parse stamps the time |
| Dashboard.SettledView | src/App.tsx:249-299 | after a run the grid is shown exactly when live rows yielded products; otherwise the error card hides the demo list; never the skeleton or the empty state |
| Dashboard.AllRequestsFail | src/App.tsx:110-120 | three not-ok responses: all three endpoints requested, demo list, "not accessible" message, time not stamped |
| Dashboard.ParseErrorMessageDistinct | src/App.tsx:169-173 | a parse error gives the demo list and a message distinct from the fetch-failure and empty-data messages |
| Dashboard.App.constructor | src/App.tsx:18-21 | initial state: no products, loading, no error, never updated; renders the skeleton |
| Dashboard.App.BeginRefresh | src/App.tsx:96-98 | a run starts loading and clears the message, keeping the products |
| Dashboard.App.CompleteParse | src/App.tsx:127-159 | demo list and "check spreadsheet access" when no row survives, else the mapped list with the message untouched; time stamped; loading ends |
| Dashboard.App.FailParse | src/App.tsx:169-173 | demo list, "parsing failed", loading ends, time unchanged |
| Dashboard.App.FailFetch | src/App.tsx:183-187 | demo list, "not accessible", loading ends, time unchanged |
| Dashboard.App.Refresh | src/App.tsx:96-195 | a whole run leaves the state `Settle(RunOutcome(fetch, parse))` and requests exactly `FetchChain`'s endpoints; keeps `Valid` |
| Dashboard.App.SettledNeverEmptyState | src/App.tsx:293-298 | a settled valid state renders the error card or the grid, never the empty state; a grid always has a last-updated time |

## Left out

- The `fetch` calls, URL building and `encodeURIComponent` are network I/O. Each request is an abstract `Attempt`.
- The allorigins JSON decoding (`response.json()`, `data.contents`) is a foreign call.
  - The relay's answer carries the unwrapped `contents` as its body.
  - A body that does not decode is modelled as a thrown request.
- A `response.text()` that throws is not modelled (host library behaviour).
- CSV tokenisation by Papa.parse is an external library. Its rows or its error callback are given as a parameter. Its type declarations (`src/types/papaparse.d.ts`) hold no logic.
- Barcode.BarcodeValue: the model stops at the value handed to JsBarcode. JsBarcode's EAN-13 encoder checks the check digit itself. The call passes no `valid` option, so a wrong check digit throws, and the catch only logs it. Two demo codes fail that check: 9002490100059 and 8712566401234. Their cards show no barcode.
- Barcode drawing is left out:
  - JsBarcode, its try/catch, and the `document.getElementById` lookup are DOM and canvas side effects.
  - `BarcodeValue` stops at the value that would be handed to the library.
  - `src/types/jsbarcode.d.ts` is declarations only.
- The `setTimeout(..., 100)` barcode passes are left out. They are timing-based scheduling.
- `formatDate` is left out. It relies on JavaScript `Date` parsing and `de-DE` locale formatting.
- `lastUpdated` is an integer time supplied by the caller. Display formatting of the time is not modelled.
- The JSX markup, styling, the eight skeleton cards and the image `onError` handler are left out as presentation.
- Logging through `console.error` is left out.
- The mount effect that starts the first run is left out. `App.Refresh` is the run itself, and the retry button calls the same routine.
- Dashboard.App.Refresh: each run is modelled as atomic. In the source a retry can overlap a pending run, and their state updates can interleave. The step methods (`BeginRefresh`, `CompleteParse`, `FailParse`, `FailFetch`) are separate so that such interleavings can still be expressed. `CompleteParse` deliberately keeps the old message, as the source does.
