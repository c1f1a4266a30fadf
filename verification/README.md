# Result paging engine of the query console, in Dafny

The query console runs a structured query (JSQL: an open record of string keys to
values) against a remote data service and shows the results page by page. This
project models the two parts of the console that do the paging:

- **The paging parameter resolver** (`JsqlPagination`, in `jsql_pagination.dfy`).
  It validates the page size, the requested page offset and the `limit` / `offset`
  embedded in the query as non-negative integers. It then computes the window
  `{limit, offset, baseOffset}` and the query to send, which is the input with
  `limit` / `offset` overwritten. A query field is a `Value`: an integral number,
  a fractional number, NaN or an infinity, a string, `null`, or anything else.
  An absent key stands for `undefined`.
- **The paging session** (`QueryResults`, in `query_results.dfy`). One object holds:
  - the base query, the page size and the base offset;
  - the contiguous accumulated rows and the column metadata;
  - `hasMore`, the loaded row count and the request version;
  - the page cache and the in-flight map, both keyed by requested page offset;
  - the active-request counter and the loading flag.

  The class `QueryResultsSession` has these fields. Its methods update them in place,
  and each method is proved equal to a step function on a snapshot `State` of the
  fields.

Loading a page suspends only at the executor call and when it awaits a request
already in flight. So it is modelled as three atomic steps:

- `Begin`: the session check, the `hasMore` check, the cache lookup, the in-flight
  lookup, the counter increment, the window resolution and the registration of the
  in-flight entry.
- `Settle`: the executor's reply is applied.
- `Finish`: the cleanup that runs on every exit, which deletes the in-flight entry
  and decrements the counter with a floor of 0.

The executor is not modelled. Its reply (`Responded(meta, data)` or `Failed`) is an
argument of `Settle`. `QueryResultsProperties` (in `query_results_properties.dfy`)
proves properties of arbitrary interleavings of these steps within one session.

Requests started before a `reset` or `clear` are modelled as the code behaves: no
request version is checked. A stale response is written into the new session's
metadata, rows and cache. A stale cleanup deletes from the new in-flight map and
decrements the new counter. `StaleResponseLandsInNewSession` and
`StaleCleanupHidesLiveFetch` exhibit this.

Three behaviours of the code that are easy to miss, and that the model reproduces:

- Metadata is taken from the first successful response whenever none is held yet,
  even if that response carries an empty metadata list (`use-query-results.ts:96-98`).
- A reset takes its page size from the query's embedded limit when there is one, not
  only from the default (`use-query-results.ts:35-37`).
- `clear` keeps the previous page size and base offset (`use-query-results.ts:50-61`).

## Model

| member | source | states |
|---|---|---|
| `JsqlPagination.GetDefaultPageSize` | src/entities/query/model/jsql-pagination.ts:55-57 | the default page size is 100 rows |
| `JsqlPagination.Field` | src/entities/query/model/jsql-pagination.ts:34-35 | reading `jsql.limit` / `jsql.offset` gives the stored value, or absent when the key is missing |
| `JsqlPagination.ParseNonNegativeInteger` | src/entities/query/model/jsql-pagination.ts:9-17 | accepts exactly the integers >= 0 and returns them unchanged; any non-number, non-finite, fractional or negative value is an error naming the field |
| `JsqlPagination.ReadOptionalInteger` | src/entities/query/model/jsql-pagination.ts:19-24 | absent and `null` read as "no value"; every other value must be a non-negative integer, and an error names the field |
| `JsqlPagination.WithPaging` | src/entities/query/model/jsql-pagination.ts:26-53 | success exactly when page size, page offset and the embedded limit/offset all validate; errors follow the validation order (page size as "limit", page offset as "offset", then embedded limit, then embedded offset); limit is the embedded limit else the page size; baseOffset is the embedded offset else 0; offset = baseOffset + pageOffset; the returned query keeps every other key and carries the window's limit and offset |
| `JsqlPagination.EffectiveQueryCarriesItsWindow` | src/entities/query/model/jsql-pagination.ts:41-52 | resolving the returned query again at page offset 0 gives back the same query and limit, with the absolute offset as base offset |
| `JsqlPagination.WindowIsOrdered` | src/entities/query/model/jsql-pagination.ts:37-39 | on success the page offset was >= 0 and offset - baseOffset equals it, so offset >= baseOffset |
| `JsqlPagination.EmbeddedLimitOverridesPageSize` | src/entities/query/model/jsql-pagination.ts:34-37 | an embedded limit wins over any page size |
| `JsqlPagination.ExampleBaseOffsetTwenty` | src/entities/query/model/jsql-pagination.ts:35-39 | base offset 20, page offset 30, no limit, page size 100 give {100, 50, 20} |
| `JsqlPagination.ExampleNegativeLimit` | src/entities/query/model/jsql-pagination.ts:34 | an embedded limit of -1 is rejected with an error naming "limit" |
| `QueryResults.Initial` | src/features/query-results/lib/use-query-results.ts:11-22 | a new session has no base query, the default page size, base offset 0, version 0 and nothing loaded, cached or in flight |
| `QueryResults.ResultsOf` | src/features/query-results/lib/use-query-results.ts:24-32 | the result set is absent exactly when there is neither metadata nor a row; otherwise it is the metadata with the contiguous rows |
| `QueryResults.ResetState` | src/features/query-results/lib/use-query-results.ts:34-48 | fails, changing nothing, exactly when the embedded limit or offset is invalid, naming that field; otherwise it sets the base query, page size = embedded limit else 100, base offset = embedded offset else 0, clears everything, and the version goes up by exactly 1 |
| `QueryResults.ClearState` | src/features/query-results/lib/use-query-results.ts:50-61 | drops the base query, clears everything, and the version goes up by exactly 1 |
| `QueryResults.BeginState` | src/features/query-results/lib/use-query-results.ts:63-93 | the load throws without a base query; it returns null when `hasMore` is false; it serves a cached page with lastRow null; it joins the request in flight; only otherwise does it start a new request with the window from the base query, page size and page offset, raising the counter and the loading flag, and registering it in flight as line 118 does; every path but the last leaves the state unchanged |
| `QueryResults.Accumulate` | src/features/query-results/lib/use-query-results.ts:96-110 | metadata is first-wins; rows are appended only when the page offset equals the accumulated row count; the loaded row count becomes max(old, pageOffset + rows), so it never decreases; `hasMore` becomes false on a zero limit or a short page and never becomes true |
| `QueryResults.SettleState` | src/features/query-results/lib/use-query-results.ts:93-115 | an invalid window or an executor failure propagates its error and changes nothing, so no cache entry is made; a response is cached under the requested page offset and accumulated; it returns its rows with lastRow = pageOffset + rows once `hasMore` is false, else null |
| `QueryResults.FinishState` | src/features/query-results/lib/use-query-results.ts:119-130 | removes the in-flight entry for the page offset and keeps every other entry with its request; the counter drops by one but never below 0; the loading flag is true exactly when the counter is positive; nothing else changes |
| `QueryResults.InitialIsCoherent` | src/features/query-results/lib/use-query-results.ts:11-22 | the new session satisfies the session invariant |
| `QueryResults.ResetIsCoherent` | src/features/query-results/lib/use-query-results.ts:35-37 | after a successful reset, resolving the base query at page 0 with the stored page size gives exactly the stored page size and base offset |
| `QueryResults.BeginKeepsCoherent` | src/features/query-results/lib/use-query-results.ts:89-90 | starting a load keeps the loading flag equal to "counter > 0" and the loaded count >= the row count |
| `QueryResults.SettleKeepsCoherent` | src/features/query-results/lib/use-query-results.ts:102-106 | applying a reply keeps the loaded row count >= the number of contiguous rows |
| `QueryResults.FinishKeepsCoherent` | src/features/query-results/lib/use-query-results.ts:127-130 | the cleanup keeps the loading flag equal to "counter > 0" |
| `QueryResults.StartedWindow` | src/features/query-results/lib/use-query-results.ts:93 | in a coherent session a started fetch asks for {pageSize, baseOffset + pageOffset, baseOffset}; a negative page offset rejects with the "offset" error before the executor is called |
| `QueryResults.QueryResultsSession.constructor` | src/features/query-results/lib/use-query-results.ts:11-22 | the fields start as the initial state |
| `QueryResults.QueryResultsSession.Reset` | src/features/query-results/lib/use-query-results.ts:34-48 | on a validation error returns it and leaves every field unchanged; otherwise the fields become the reset state |
| `QueryResults.QueryResultsSession.Clear` | src/features/query-results/lib/use-query-results.ts:50-61 | the fields become the cleared state |
| `QueryResults.QueryResultsSession.DropResults` | src/features/query-results/lib/use-query-results.ts:39-42 | empties rows and metadata, zeroes the loaded count, re-opens `hasMore`, and changes nothing else |
| `QueryResults.QueryResultsSession.DropRequests` | src/features/query-results/lib/use-query-results.ts:43-47 | lowers the loading flag, empties cache and in-flight map, zeroes the counter, bumps the version by 1, and changes nothing else |
| `QueryResults.QueryResultsSession.Begin` | src/features/query-results/lib/use-query-results.ts:63-93 | the fields and the outcome are those of `BeginState`, including the in-flight registration of line 118; a coherent session stays coherent |
| `QueryResults.QueryResultsSession.Settle` | src/features/query-results/lib/use-query-results.ts:93-116 | the fields and the returned page or error are those of `SettleState`; a coherent session stays coherent |
| `QueryResults.QueryResultsSession.AccumulatePage` | src/features/query-results/lib/use-query-results.ts:96-110 | the fields become those of `Accumulate` |
| `QueryResults.QueryResultsSession.Finish` | src/features/query-results/lib/use-query-results.ts:119-130 | the fields become those of `FinishState`; the counter is decremented with a floor of 0 and the loading flag mirrors it; a coherent session stays coherent |
| `QueryResultsProperties.ApplyKeeps` | src/features/query-results/lib/use-query-results.ts:63-131 | one load, reply or cleanup keeps the session's base query, page size, base offset and version, and keeps `hasMore` one-way, the loaded count non-decreasing, metadata frozen once held, the rows append-only and the cached offsets cached |
| `QueryResultsProperties.RunKeeps` | src/features/query-results/lib/use-query-results.ts:63-131 | the same holds across any interleaving of loads, replies and cleanups |
| `QueryResultsProperties.ApplyKeepsCoherent` | src/features/query-results/lib/use-query-results.ts:63-131 | one step keeps the session invariant |
| `QueryResultsProperties.RunKeepsCoherent` | src/features/query-results/lib/use-query-results.ts:63-131 | any interleaving keeps the loading flag equal to "counter > 0" and the loaded count >= the rows |
| `QueryResultsProperties.NoFetchOnceExhausted` | src/features/query-results/lib/use-query-results.ts:71-73 | once `hasMore` is false, no later load starts a fetch |
| `QueryResultsProperties.NoDuplicateFetch` | src/features/query-results/lib/use-query-results.ts:75-86 | an offset that is cached, or in flight and not yet cleaned up, is never fetched again |
| `QueryResultsProperties.CacheWrittenOnlyOnSuccess` | src/features/query-results/lib/use-query-results.ts:100 | a run with no successful response leaves the cache exactly as it was |
| `QueryResultsProperties.SecondLoadJoins` | src/features/query-results/lib/use-query-results.ts:83-86 | a load of an offset right after the first load of it starts a fetch joins that request and changes nothing (later joins follow from `BeginState` and `NoDuplicateFetch`) |
| `QueryResultsProperties.ResetForcesFreshFetch` | src/features/query-results/lib/use-query-results.ts:34-48 | after a reset, loading any offset >= 0 starts a fresh fetch for {pageSize, baseOffset + offset, baseOffset} |
| `QueryResultsProperties.LoadAfterClearFails` | src/features/query-results/lib/use-query-results.ts:67-69 | after clear, every load throws for want of a base query and changes nothing |
| `QueryResultsProperties.StaleResponseLandsInNewSession` | src/features/query-results/lib/use-query-results.ts:96-104 | as written, a response to a request started before a reset becomes the new session's rows, metadata and cache entry |
| `QueryResultsProperties.StaleCleanupHidesLiveFetch` | src/features/query-results/lib/use-query-results.ts:122-129 | as written, a stale cleanup at a live fetch's offset removes that fetch's in-flight entry and lowers the loading flag while the fetch is outstanding |
| `QueryResultsProperties.TwoPageScenario` | src/features/query-results/lib/use-query-results.ts:93-115 | query {}: page 0 sends {limit 100, offset 0}, and 100 rows keep `hasMore` with 100 loaded; page 100 asks {100, 100, 0}, and 40 rows end the data with lastRow 140 |
| `QueryResultsProperties.EmbeddedWindowScenario` | src/features/query-results/lib/use-query-results.ts:108-110 | query {limit 10, offset 5}: page 0 asks {10, 5, 5}, and a full page of 10 rows keeps `hasMore` true |

## Left out

- Promise interleaving is reduced to the atomic steps `Begin`, `Settle` and `Finish`. A load that joins an in-flight request gets whatever that request's `Settle` returns; the await itself is not a separate step.
- The executor and the remote data service are not modelled. Their reply is an argument of `Settle`, and their errors are an opaque reason string.
- The `console.error` logging of a failed load (`use-query-results.ts:125`) is not modelled.
- Vue reactivity (`ref`, `computed`) is replaced by plain fields, and `results` is a function of them.
- JavaScript numbers are modelled as unbounded integers. Rounding of sums above 2^53 and the value -0 are not modelled.
- The page offset of a load is an integer in the session. A fractional or non-finite page offset, which the resolver itself rejects, is not passed through the session.
- A cache hit returns the cached array itself in the source. Sharing of that array between callers is not modelled: rows are values.
- No version guard is added for stale requests. The model reproduces the code's behaviour, as described above.
- The UI orchestration, persisted editor state, schema explorer, HTTP client, query conversion, formatters, configuration and logging are not part of this model.
