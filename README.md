# Loads table front end — a verified Dafny model

The front end lists shipment loads in a table. It supports search, filters by
status and carrier, and server-side pagination. The filter state lives in the
URL so that views can be bookmarked and the back and forward buttons work.
This project models the logic behind that, one Dafny module per source file:

- `UrlState` (`useURLState.ts`) reads the page, search text, status id and
  carrier id from the query string. It writes them back, leaving out values
  that equal their defaults, by pushing a browser history entry. On a
  back/forward navigation it reads all four again. The browser's session
  history is part of the `UrlStateHook` class (its entries and the current
  one), standing in for `window.location` and `window.history`.
- `Api` (`api.ts`) builds the loads query by conditional appends in a fixed
  order, skipping falsy values. It also gives the URL each of its three
  requests fetches, and maps each endpoint's non-ok response to its fixed
  error message. What `fetch` returned
  is a parameter (`Reply`).
- `LoadsTableController` (`LoadsTable.tsx`) covers the six state variables,
  the start and end of a loads fetch, the reference-data fetch, and the filter
  handlers that go back to page 1. It also picks what to show: skeleton,
  error, empty notice or table. The pure transitions `Started`, `Finished`
  and `FiltersLoaded` specify the methods of class `LoadsTable`. The
  invariant `Consistent` holds in every reachable state.
- `TableView` (`Table.tsx`): label lookup by id that falls back to the id's
  text, and one row of eight cells per load.
- `StatusBadge`, `PaginationControls`, `FilterBar`: the badge colour chosen
  without regard to case, the previous/next targets and their disabled flags,
  and the controls the filter bar renders: the raw search text, and each
  select's value and options.
- Helpers: `Wrappers` (Option, Result), `Decimal` (integer text both ways),
  `SearchParams` (the `get`/`set`/`append`/`toString` behaviour of
  URLSearchParams over decoded pairs), and `Types` (the records of
  `client/src/types/index.ts`).

The headline result is `UrlState.RoundTrip`. Reading back the query written
for a filter state gives that state exactly when the page is at least 1 and
each id is absent or non-zero. Outside that domain `UrlState.ParseSerialise`
says what comes back instead: page 1, or no id.

Where one would expect other behaviour, the model follows the code:
- One would expect only defaults to be left out of the URL. The code also
  drops pages below 1 and the id 0, because `if (status)` is false for 0.
- One would expect a malformed number in the URL to fall back to its default.
  It does not: `parseInt` reads the value of a leading numeric prefix
  (`"2x"` gives 2) and gives NaN when there is none. Only decimal literals
  are in the model (see below).
- The filter state rebuilds exactly from the URL only on the round-trip domain
  above.
- After a failed fetch, rows disappear only when the error text is non-empty.
  `if (error)` treats an empty message as no error.

## Model

| member | source | states |
|---|---|---|
| `UrlState.Parse` | client/src/hooks/useURLState.ts:11-23 | A missing or empty `page` reads as 1, and a present one as its decimal value. `search` is empty exactly when its parameter is missing or empty, and otherwise is that text. `status` and `carrier` are absent exactly when their parameters are missing or empty, and otherwise are the decimal value of their text. |
| `UrlState.Serialise` | client/src/hooks/useURLState.ts:36-41 | The written query has at most four parameters. It is empty exactly for the default state: page at most 1, empty search, and no non-zero id. |
| `UrlState.SerialiseGet` | client/src/hooks/useURLState.ts:36-41 | The written query has `page` only when the page is above 1, `search` only when it is non-empty, and `status`/`carrier` only when set and non-zero. Each value is the decimal text of the number. |
| `UrlState.SerialiseLookup` | client/src/hooks/useURLState.ts:36-41 | Looking up any name in the written query gives the value of the first of the four conditional `set` calls that emits it. Any other name is absent. |
| `UrlState.SerialiseOrder` | client/src/hooks/useURLState.ts:38-41 | Parameters appear in the order page, search, status, carrier. No name appears twice, and there are at most four. |
| `UrlState.SerialiseWellFormed` | client/src/hooks/useURLState.ts:38-41 | Every written query holds decimal literals in its numeric parameters, so the parse side can read it. |
| `UrlState.ParseSerialise` | client/src/hooks/useURLState.ts:11-48 | For every state, reading back the written query gives the normalised state: pages below 2 become 1 and a 0 id becomes absent. |
| `UrlState.RoundTrip` | client/src/hooks/useURLState.ts:11-48 | parse(serialise(s)) == s holds exactly when page ≥ 1 and status and carrier are each absent or non-zero. Both directions are proved. |
| `UrlState.SerialiseParseSerialise` | client/src/hooks/useURLState.ts:11-48 | Writing the state read from a written query reproduces that query, so the URL is stable after one round. |
| `UrlState.BuildParams` | client/src/hooks/useURLState.ts:35-41 | The successive conditional `set` calls on an empty URLSearchParams build exactly the serialised query. |
| `UrlState.Href` | client/src/hooks/useURLState.ts:43-45 | With no parameters the URL is the bare pathname. Otherwise it is `pathname?query`, strictly longer than the pathname plus the `?`. |
| `Decimal.ParseIntToString` | client/src/hooks/useURLState.ts:14-41 | `parseInt` of `n.toString()` gives back `n` for every integer. |
| `UrlState.UrlStateHook.constructor` | client/src/hooks/useURLState.ts:25-32 | On first render the four values are those parsed from the current URL. The history holds that one entry, and the URL effect has not run. |
| `UrlState.UrlStateHook.SetPage` | client/src/hooks/useURLState.ts:27 | Changes the page only. The history is untouched. |
| `UrlState.UrlStateHook.SetSearch` | client/src/hooks/useURLState.ts:28 | Changes the search only. The history is untouched. |
| `UrlState.UrlStateHook.SetStatus` | client/src/hooks/useURLState.ts:29 | Changes the status only. The history is untouched. |
| `UrlState.UrlStateHook.SetCarrier` | client/src/hooks/useURLState.ts:30-32 | Changes the carrier only. The history is untouched. |
| `UrlState.UrlStateHook.PushState` | client/src/hooks/useURLState.ts:47 | Adds a new entry after the current one and drops any forward entries. The filter values do not change. |
| `UrlState.UrlStateHook.SyncUrlAsWritten` | client/src/hooks/useURLState.ts:34-48 | The effect as written runs only when one of the four values changed since its last run. It then always pushes the serialised query. |
| `UrlState.UrlStateHook.SyncUrl` | client/src/hooks/useURLState.ts:34-48 | The corrected effect also skips the push when the current entry already reads back as the state. After a push on the round-trip domain, the URL reads back as the state. |
| `UrlState.UrlStateHook.Traverse` | client/src/hooks/useURLState.ts:50-62 | A back/forward navigation moves to the target entry. The popstate handler then replaces all four values with those parsed from that entry. |
| `UrlState.ForwardLostAsWritten` | client/src/hooks/useURLState.ts:34-62 | With the effect as written, going from `/` to page 2 and pressing Back leaves no forward entry. |
| `UrlState.ForwardKept` | client/src/hooks/useURLState.ts:34-62 | With the corrected effect, the same run keeps the forward entry. Going forward restores page 2. |
| `Api.LoadsQuery` | client/src/services/api.ts:7-13 | The loads query has at most five parameters. It is empty exactly when no parameter is truthy. |
| `Api.LoadsUrl` | client/src/services/api.ts:15 | The URL always starts with the base URL and `/loads?`. It is exactly that prefix, `?` included, when the query is empty. |
| `Api.Checked` | client/src/services/api.ts:16-22 | The call succeeds exactly on an ok response, with its body. A non-ok response fails with the endpoint's message, and a rejection propagates its reason. |
| `Api.BuildLoadsQuery` | client/src/services/api.ts:7-13 | The successive conditional appends give exactly `LoadsQuery(params)`. |
| `Api.LoadsQueryLookup` | client/src/services/api.ts:9-13 | Each of page, limit, status and carrier is present exactly when it is set and non-zero, with its decimal text. The search is present exactly when it is set and non-empty. |
| `Api.LoadsQueryOrder` | client/src/services/api.ts:7-13 | Parameters appear in the order page, limit, status, carrier, search. There are at most five, and no name appears twice. |
| `Api.DecodeLoadsQueryInverse` | client/src/services/api.ts:7-15 | Reading the query back gives exactly the truthy parameters: 0 numbers and the empty search come back absent. |
| `Api.LoadsQuerySameIff` | client/src/services/api.ts:7-15 | Two requests produce the same query exactly when they agree on their truthy parameters. |
| `Api.GetLoads` | client/src/services/api.ts:6-23 | The URL is the base URL followed by `/loads?` and the query, even when the query is empty. A non-ok response fails with exactly "Failed to fetch loads". A rejection propagates, and an ok response yields its body. |
| `Api.GetStatuses` | client/src/services/api.ts:25-33 | The URL fetched is the base URL followed by `/statuses`. A non-ok response fails with exactly "Failed to fetch statuses". A rejection propagates, and an ok response yields its body. |
| `Api.GetCarriers` | client/src/services/api.ts:35-43 | The URL fetched is the base URL followed by `/carriers`. A non-ok response fails with exactly "Failed to fetch carriers". A rejection propagates, and an ok response yields its body. |
| `LoadsTableController.LoadsRequest` | client/src/components/LoadsTable.tsx:67-73 | The request always has limit 10. An empty debounced search is sent as absent. Page, status and carrier come from the URL state. |
| `LoadsTableController.RequestQuery` | client/src/components/LoadsTable.tsx:67-73 | The query sent always has `limit=10`. It has `search` only for non-empty debounced text and `page` unless the page is 0. `status` and `carrier` match those the address bar carries. |
| `LoadsTableController.ErrorMessage` | client/src/components/LoadsTable.tsx:76-77 | An `Error` gives its message. Any other thrown value gives "Failed to load data". |
| `LoadsTableController.Started` | client/src/components/LoadsTable.tsx:63-66 | Starting a fetch sets loading and clears the error. Nothing else changes, and the invariant is kept. |
| `LoadsTableController.Finished` | client/src/components/LoadsTable.tsx:63-80 | Success replaces loads and pagination by the response and leaves the error as it was. Failure sets the error message and keeps the loads. Loading is false afterwards, and the invariant is kept. |
| `LoadsTableController.FiltersLoaded` | client/src/components/LoadsTable.tsx:50-61 | Both reference lists are taken only when both requests succeed. A failure changes nothing. Loads, pagination, loading and error never change. |
| `LoadsTableController.SelectScreen` | client/src/components/LoadsTable.tsx:98-128 | Shows the skeleton iff loading with no loads. Otherwise it shows the error iff one is set and non-empty. Otherwise it shows the filter bar over the empty notice iff there are no loads. Otherwise it shows the rows, plus a pager iff pagination is present. |
| `LoadsTableController.TableAlwaysPaged` | client/src/components/LoadsTable.tsx:119-127 | In every consistent state (one the transitions keep), the table comes with the pager of the stored pagination. |
| `LoadsTableController.FailureShowsError` | client/src/components/LoadsTable.tsx:76-104 | After a failed fetch with a non-empty message, the screen is that error, whatever rows were shown before. |
| `LoadsTableController.EmptyResultShowsEmpty` | client/src/components/LoadsTable.tsx:63-121 | A fetch that returns no loads shows the empty notice, not the error. |
| `LoadsTableController.ResultShowsRows` | client/src/components/LoadsTable.tsx:63-127 | A fetch that returns loads shows exactly their rows, with the response's pager, under the filter bar. |
| `LoadsTableController.RefetchKeepsRows` | client/src/components/LoadsTable.tsx:63-100 | While a new fetch is in flight, rows already shown stay on screen with no skeleton. |
| `LoadsTableController.FiltersFailureIsolated` | client/src/components/LoadsTable.tsx:50-61 | A failed statuses or carriers fetch changes neither the state nor the screen. |
| `LoadsTableController.LoadsTable.Screen` | client/src/components/LoadsTable.tsx:98-128 | What the component renders is the selection for its table state and the URL state. When the listing is shown, its search box holds the URL hook's raw search text, not the debounced one. |
| `LoadsTableController.LoadsTable.constructor` | client/src/components/LoadsTable.tsx:20-26 | The component starts with no loads, no reference data, no pagination, loading and no error. |
| `LoadsTableController.LoadsTable.StartFetch` | client/src/components/LoadsTable.tsx:63-73 | Moves to `Started` of the old state and returns the request for the current filters. |
| `LoadsTableController.LoadsTable.FinishFetch` | client/src/components/LoadsTable.tsx:74-80 | Moves to `Finished` of the old state for the settled outcome. |
| `LoadsTableController.LoadsTable.FetchData` | client/src/components/LoadsTable.tsx:63-81 | An uninterrupted fetch requests the URL built from the filters. It ends in `Finished(Started(old))` with the body, with "Failed to fetch loads", or with the rejection reason. |
| `LoadsTableController.LoadsTable.FinishFilters` | client/src/components/LoadsTable.tsx:50-61 | Moves to `FiltersLoaded` of the old state. |
| `LoadsTableController.LoadsTable.HandleSearchChange` | client/src/components/LoadsTable.tsx:83-86 | Sets the search to the raw input text, unchanged, and the page to 1. The table state and history are untouched. |
| `LoadsTableController.LoadsTable.HandleStatusChange` | client/src/components/LoadsTable.tsx:88-91 | Sets the status and the page to 1. |
| `LoadsTableController.LoadsTable.HandleCarrierChange` | client/src/components/LoadsTable.tsx:93-96 | Sets the carrier and the page to 1. |
| `TableView.Find` | client/src/components/Table.tsx:13 | The lookup is absent iff no reference has the id. Otherwise it is a reference with that id. |
| `TableView.FindFirst` | client/src/components/Table.tsx:19 | The lookup returns the first reference with the id. |
| `TableView.LabelFor` | client/src/components/Table.tsx:11-21 | The displayed label is never empty. |
| `TableView.LabelOfFirstMatch` | client/src/components/Table.tsx:11-21 | The label is that of the first reference with the id. If that label is empty, it is the id's decimal text. |
| `TableView.LabelFallback` | client/src/components/Table.tsx:11-21 | With no reference for the id, the label is the id's text, which reads back as the id. |
| `TableView.RowFor` | client/src/components/Table.tsx:77-100 | A row is keyed by the load id and has one cell per header, eight in all. The first three cells are the id, origin and destination. The status cell is the badge of the looked-up status label, and the carrier cell is the looked-up carrier label. |
| `TableView.Rows` | client/src/components/Table.tsx:74-102 | There is exactly one row per load, in input order. |
| `TableView.RowsWithoutReferences` | client/src/components/Table.tsx:74-102 | Without reference data, rows show the raw status and carrier ids. |
| `StatusBadge.BadgeColor` | client/src/components/StatusBadge.tsx:6-19 | The colour is one of exactly five classes. "pending", "in transit", "delivered" and "cancelled", in any case, give yellow, blue, green and red; anything else gives gray. |
| `StatusBadge.BadgeColorIgnoresCase` | client/src/components/StatusBadge.tsx:7 | Upper-casing a label does not change its colour. |
| `StatusBadge.BadgeFor` | client/src/components/StatusBadge.tsx:21-29 | The badge shows the label exactly as given, with the base classes and its colour. |
| `PaginationControls.Pager` | client/src/components/Pagination.tsx:11-27 | Previous requests page − 1 and next requests page + 1. Each is disabled iff the server says there is no such page. The label shows the page and the server's total. |
| `PaginationControls.EnabledTargetsSurviveUrl` | client/src/components/Pagination.tsx:11-27 | Assume the server's page is at least 1 and it offers a previous page only above 1. Then the page an enabled button requests reads back unchanged from the URL. |
| `FilterBar.SelectValue` | client/src/components/FilterBar.tsx:38 | The select value is empty exactly when no id is chosen. Otherwise it is the id's decimal text, the same text the options use. |
| `FilterBar.DecodeSelect` | client/src/components/FilterBar.tsx:39-41 | The empty value reports no id; any other value reports an id (which one is given by `FilterBar.SelectRoundTrip` and `FilterBar.PickOption`). |
| `FilterBar.SelectRoundTrip` | client/src/components/FilterBar.tsx:37-41 | Decoding the shown value gives back the chosen id, including 0, or no id. |
| `FilterBar.Options` | client/src/components/FilterBar.tsx:44-63 | The "All …" option with the empty value comes first, then one option per item in input order, valued by its id's text. |
| `FilterBar.ShownValueIsOption` | client/src/components/FilterBar.tsx:37-63 | The value a select shows for item k's id equals the value of option k + 1, so the select shows that item's entry. |
| `FilterBar.Controls` | client/src/components/FilterBar.tsx:27-64 | The search box shows the search text unchanged. Each select shows `SelectValue` of its chosen id and offers `Options` of its list under "All Statuses" or "All Carriers". |
| `FilterBar.PickOption` | client/src/components/FilterBar.tsx:37-63 | Every option value can be decoded. The first option reports no id; option k reports the id of item k − 1. |

## Findings

| source | as written | input that shows it | evidently intended | confidence | as-written member | corrected member |
|---|---|---|---|---|---|---|
| client/src/hooks/useURLState.ts:34-62 | The URL effect depends on the four values. After the popstate handler sets them, it runs again and pushes a new history entry, which drops every forward entry. It also pushes a duplicate of the starting entry on mount. | Start at `/`, change to page 2, then press Back: Forward is no longer possible | Back and forward both work; no entry is pushed when the address bar already shows the state | medium, not executed | `UrlState.UrlStateHook.SyncUrlAsWritten`, shown by `UrlState.ForwardLostAsWritten` | `UrlState.UrlStateHook.SyncUrl`, shown by `UrlState.ForwardKept` |

## Left out

- Network I/O is a parameter. This covers `fetch`, `response.json()` and sending the request. The model takes the reply `fetch` produced (a rejection, or an ok flag and a parsed body). A failure to parse JSON is not modelled.
- Percent-encoding by URLSearchParams (the application/x-www-form-urlencoded serializer of the WHATWG URL Standard) is not modelled. Queries are lists of decoded pairs, and `SearchParams.Text` joins the raw strings.
- UrlState.Parse: requires page, status and carrier to be decimal literals when present and non-empty. On other text, JavaScript's `parseInt` yields NaN or the value of a numeric prefix, which the model does not cover.
- FilterBar.DecodeSelect: requires the empty value or a decimal literal. `FilterBar.PickOption` shows that every option value the select can report meets this. `Number` on other text is not modelled.
- Numbers are mathematical integers, and prices and weights are reals. JavaScript's floating-point numbers, fractional pages and -0 are not modelled.
- Dates, weights and prices are not formatted (`formatDate`, `formatWeight`, `formatPrice` are locale library calls). Their cells hold the raw values.
- `toLowerCase` is modelled on ASCII letters only.
- The debounce timer is not modelled (`useDebounce` is not part of this model). The debounced search text is a parameter of `StartFetch` and `FetchData`.
- Superseded in-flight fetches can still race. `StartFetch` and `FinishFetch` are separate so that any interleaving can be expressed, and `Consistent` holds under all of them. The model adds no sequence token.
- `console.error` logging of a failed reference fetch is not modelled.
- React's scheduling is not modelled. Setters, the URL effect and the popstate handler are explicit method calls, and one `SyncUrl` call stands for the effect run after a batched render.
- Only navigation within the page's own history entries is modelled. `Traverse` requires a target entry other than the current one; leaving the document is not covered.
- Markup and class strings without logic are not modelled: the JSX layout, `LoadingSkeleton`, `ErrorState`, `EmptyState` and `App`.
- The reference field `label` is named `text` in the model, because `label` is a reserved word in Dafny.
