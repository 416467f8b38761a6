# Service marketplace core, modelled in Dafny

A model of the logic at the centre of the `add` marketplace application: a client that lists,
creates, edits and deletes service offers and requests (bike, lift, tuition, notes, room), and
the Cloudflare worker that stores them in a D1 table.

The model covers seven parts:

- **Error taxonomy** (`errors.dfy`). A thrown value is a `ServiceOperationError` with a code, another
  `Error`, or a non-Error value. Only the three transient codes are retryable.
- **Retry policy** (`retry.dfy`). The configuration is merged from defaults. `retryOperation` is a
  `while` loop over attempts with exponential backoff. It is proved equal to a recursive
  specification `Run`, and the lemmas about `Run` give the attempt budget, the backoff schedule and
  which error is rethrown.
- **API client** (`service_api.dfy`). `handleError` turns a failed request into an error envelope.
  Every endpoint wrapper returns the delivered envelope or that error envelope, and never throws.
- **Service context** (`service_context.dfy`, `domain.dfy`). The reducer is a pure function. The
  provider is a class holding the reducer state and a ghost log of dispatched actions. Each intent
  (fetch, add, update, delete, set filters, refresh) is a method that states, on every path, the
  final state and the exact actions it dispatched.
- **Zustand store** (`service_store.dfy`). A class with `services`, `myServices` and `loading`, plus
  a ghost log of every `loading` value set. Each action is a method that states the new lists.
- **Backend worker** (`backend.dfy`, `list_query.dfy`). Routing follows the worker's order of
  `if`s. The table is a class holding `map<nat, Row>` and the next row id. One method per route
  states each check in the source's order (401, body, 404, 403) and the mutation that follows. The
  list route's SQL is built as pieces and `?` placeholders, and is proved to carry one placeholder
  per bound value.
- **Relative time** (`time_ago.dfy`). `formatTimeAgo` chooses whole minutes, hours or days. Its
  result reads back to the chosen span.

`wrappers.dfy`, `text.dfy` and `seqs.dfy` hold shared helpers: `Option`, decimal rendering and
parsing, `split`/`join`, lower-casing, substring search, and an order-preserving filter.

The model follows the code as written; in particular:

- `updateService` and `deleteService` in the context call the API directly, not through the retry
  policy, and never touch `pendingOperations`.
- `fetchServices(params)` ignores `params`, so `refreshServices` with stored filters fetches exactly
  what an unfiltered fetch would.
- Nothing keeps ids unique. `ADD_SERVICE` prepends without checking, and a fetch replaces the list
  wholesale. The model proves when uniqueness is preserved (`AddServiceSpec`, `UpdateServiceSpec`,
  `DeleteServiceSpec`) instead of assuming it.
- `HTTP_<status>` codes are never retryable, whatever the status: `isRetryableError` knows only the
  three transient codes.
- The worker's POST answers with `{ id }` only, and its PUT answers with `data: null`. The context's
  `addService` prepends whatever `data` it receives. Against this worker, `updateService` always
  ends in `NO_DATA`, because the reply of a successful PUT carries no data.

## Model

| member | source | states |
|---|---|---|
| Errors.IsRetryable | src/types/errors.ts:31-36 | only a `ServiceOperationError` can be retryable, and only with one of the three transient codes |
| Errors.NewOperationError | src/types/errors.ts:20-29 | keeps message, code and details, names the error `ServiceOperationError`, and is retryable exactly for a transient code |
| Errors.RetryableExactly | src/types/errors.ts:31-36 | retryable iff a `ServiceOperationError` with code `NETWORK_ERROR`, `TIMEOUT_ERROR` or `SERVICE_UNAVAILABLE`; any other thrown value never is; message and details play no part |
| Errors.NonTransientCodesNotRetryable | src/types/errors.ts:33 | `VALIDATION_ERROR`, `NOT_FOUND`, `NO_DATA`, `UNKNOWN_ERROR`, `OPERATION_ERROR` and every `HTTP_<n>` are not retryable |
| Retry.Resolve | src/hooks/useRetry.ts:10-17 | each field is the caller's value when supplied, else the default 3 / 1000 / 10000 |
| Retry.Delay | src/hooks/useRetry.ts:33-36 | the sleep is at most `maxDelay` and at most `baseDelay·2^attempt`, and equals one of the two |
| Retry.DelayMonotone | src/hooks/useRetry.ts:33-36 | later attempts never sleep less |
| Retry.AsError | src/hooks/useRetry.ts:27 | an Error is kept as it is; any other value becomes an Error carrying its text |
| Retry.RunShape | src/hooks/useRetry.ts:23-42 | every invocation before the last failed retryably and was followed by its backoff sleep; the last one returned its value or threw a non-retryable error or exhausted the budget, and that error is rethrown |
| Retry.AttemptBudget | src/hooks/useRetry.ts:23 | between 1 and `maxRetries + 1` invocations, one sleep fewer than invocations, exactly one invocation when `maxRetries = 0` |
| Retry.BackoffSchedule | src/hooks/useRetry.ts:33-38 | the k-th sleep is `Delay(k)`, sleeps never decrease and never exceed `maxDelay` |
| Retry.FirstSuccessIsImmediate | src/hooks/useRetry.ts:23-25 | a first attempt that succeeds is returned after one call and no sleep |
| Retry.SuccessAfterFailures | src/hooks/useRetry.ts:23-38 | k retryable failures then a success: that success, after k+1 calls and k sleeps |
| Retry.NonRetryableStops | src/hooks/useRetry.ts:26-31 | a non-retryable failure is rethrown at once, with no further invocation |
| Retry.ExhaustedBudget | src/hooks/useRetry.ts:27-31 | when every attempt fails retryably, `maxRetries + 1` calls are made and the last attempt's error is rethrown |
| Retry.StopsAt | src/hooks/useRetry.ts:23-31 | the run stops exactly at the first invocation that does not fail retryably |
| Retry.RetryOperation | src/hooks/useRetry.ts:19-45 | the loop's outcome, call count and sleeps are those of the specification `Run` |
| ServiceApi.HandleError | src/api/ServiceApi.ts:45-63 | always an error envelope, never data; `HTTP_<status>` with that status (500 for 0) when a response arrived, `NETWORK_ERROR`/500 without one, `UNKNOWN_ERROR`/500 for a non-axios error; the server's message wins over the axios one |
| ServiceApi.Invoke | src/api/ServiceApi.ts:66-136 | every wrapper returns the delivered envelope unchanged, or the `handleError` envelope for a failure |
| ServiceApi.CodeIdentifiesFailure | src/api/ServiceApi.ts:50 | an `HTTP_<status>` code gives back the exact response status; the other codes give none |
| ServiceApi.RetryableOnlyWithoutResponse | src/api/ServiceApi.ts:48-62 | rethrown as a `ServiceOperationError`, a normalised failure is retryable exactly when no response arrived |
| Domain.Replace | src/context/ServiceContext.tsx:63 | the mapped list keeps its length and the id at every position |
| Domain.WithoutId | src/context/ServiceContext.tsx:66 | the filtered list never grows, and holds only entries of the old list whose id differs |
| Domain.ReplaceByIdSpec | src/context/ServiceContext.tsx:60-64 | replacing by id keeps length, order and ids, changes exactly the matching entries, and keeps ids unique |
| Domain.WithoutIdSpec | src/context/ServiceContext.tsx:65-66 | removing by id leaves no entry with the id, keeps the other entries with their multiplicity and order, keeps ids unique, and shrinks the list when the id was there |
| Domain.WithoutIdUnique | src/context/ServiceContext.tsx:65-66 | removing by id keeps ids unique |
| Domain.WithoutIdShrinks | src/context/ServiceContext.tsx:65-66 | removing an id that is present makes the list shorter |
| Domain.PrependUnique | src/context/ServiceContext.tsx:58-59 | prepending keeps ids unique iff the new id is absent |
| ServiceContext.Reduce | src/context/ServiceContext.tsx:50-76 | each action writes only its own field of the new state (`Writes`); an unrecognised action returns the state unchanged |
| ServiceContext.PendingNeverNegative | src/context/ServiceContext.tsx:69-72 | increment adds one, decrement subtracts one but stops at zero, so the counter is never negative |
| ServiceContext.PendingBalance | src/context/ServiceContext.tsx:69-72 | an increment then a decrement restore the counter |
| ServiceContext.AddServiceSpec | src/context/ServiceContext.tsx:58-59 | the payload becomes the first entry, the old entries follow in order, and ids stay unique iff the payload's id was new |
| ServiceContext.UpdateServiceSpec | src/context/ServiceContext.tsx:60-64 | length, order and ids are kept, matching entries become the payload, ids stay unique |
| ServiceContext.DeleteServiceSpec | src/context/ServiceContext.tsx:65-66 | no entry with the id remains, the others are kept in order, the list never grows, ids stay unique |
| ServiceContext.Classify | src/context/ServiceContext.tsx:94-98 | a `ServiceOperationError` is kept; another Error becomes `UNKNOWN_ERROR` with its message; anything else becomes `OPERATION_ERROR` with the fallback message |
| ServiceContext.ClassifySpec | src/context/ServiceContext.tsx:94-98 | classification always yields a `ServiceOperationError`, is idempotent, and keeps retryability |
| ServiceContext.WrappedCallRunsOnce | src/context/ServiceContext.tsx:112 | the retry around an endpoint wrapper makes one call and sleeps never |
| ServiceContext.RetriedCall | src/context/ServiceContext.tsx:134 | `retryOperation(() => ServiceApi.x())` returns the first reply after exactly one call |
| ServiceContext.ServiceProvider.constructor | src/context/ServiceContext.tsx:41-47 | the initial state: no services, not loading, no error, no filters, no pending operation |
| ServiceContext.ServiceProvider.Dispatch | src/context/ServiceContext.tsx:90 | the state becomes the reducer's result and the action is logged |
| ServiceContext.ServiceProvider.HandleServiceError | src/context/ServiceContext.tsx:94-102 | stores and returns the classified error, changing nothing else |
| ServiceContext.ServiceProvider.BeginTracked | src/context/ServiceContext.tsx:107-109 | one more pending operation, loading, error cleared |
| ServiceContext.ServiceProvider.EndTracked | src/context/ServiceContext.tsx:118-121 | one fewer pending operation and not loading |
| ServiceContext.ServiceProvider.FetchServices | src/context/ServiceContext.tsx:105-124 | one call; on success the list is replaced wholesale by `data` or `[]`; on an error envelope the error is stored and the list kept; the counter ends where it started and loading false; the exact dispatch sequence |
| ServiceContext.ServiceProvider.AddService | src/context/ServiceContext.tsx:127-148 | one call; the reply's service is prepended only on success; an error envelope or missing data is stored, returned as the error and leaves the list unchanged; the counter is balanced and loading ends false |
| ServiceContext.ServiceProvider.UpdateService | src/context/ServiceContext.tsx:151-173 | an id not in the list fails with `NOT_FOUND` and no API call; otherwise one direct call whose data replaces the matching entries, while an error envelope or missing data is stored and returned; the counter is never touched; the exact dispatch sequence on every path |
| ServiceContext.ServiceProvider.DeleteService | src/context/ServiceContext.tsx:176-197 | an id not in the list fails with `NOT_FOUND` and no API call; otherwise one direct call, then every entry with the id is removed unless the reply is an error; the exact dispatch sequence on every path |
| ServiceContext.ServiceProvider.SetFilters | src/context/ServiceContext.tsx:200-202 | only the filters change |
| ServiceContext.ServiceProvider.RefreshServices | src/context/ServiceContext.tsx:205-207 | the same state and dispatch sequence as a fetch; the stored filters have no effect |
| ServiceStore.Keep | src/store/serviceStore.ts:26-31 | the chain of early returns keeps an item iff every given filter holds: category, type, and for a non-empty search an `includes` of the lower-cased search in the lower-cased title (ASCII lower-casing) |
| ServiceStore.FilterServices | src/store/serviceStore.ts:26-32 | the filtered list is an order-preserving subsequence of the data, never longer |
| ServiceStore.KeepIff | src/store/serviceStore.ts:26-31 | an item is kept iff its category and type match the given ones and, for a non-empty search, the lower-cased search occurs in the lower-cased title |
| ServiceStore.FilterServicesSpec | src/store/serviceStore.ts:26-32 | exactly the kept items, each as often as it occurs in the data |
| ServiceStore.Stamp | src/store/serviceStore.ts:56-61 | the generated id and the two separately read timestamps apply only where the caller's object carries none; every other field is the caller's |
| ServiceStore.Store.constructor | src/store/serviceStore.ts:17-20 | both lists empty, not loading |
| ServiceStore.Store.SetLoading | src/store/serviceStore.ts:23 | stores and logs the flag and leaves the lists alone |
| ServiceStore.Store.FetchServices | src/store/serviceStore.ts:22-38 | `services` becomes the filtered placeholder list, which is empty; `loading` goes true then false |
| ServiceStore.Store.FetchMyServices | src/store/serviceStore.ts:40-51 | `myServices` becomes the current user's entries of `services`, in order; `services` is kept |
| ServiceStore.Store.CreateService | src/store/serviceStore.ts:53-71 | the stamped record is appended at the end of both lists |
| ServiceStore.Store.UpdateService | src/store/serviceStore.ts:73-85 | in both lists every entry with the id becomes the service with a fresh `updated_at` |
| ServiceStore.Store.DeleteService | src/store/serviceStore.ts:87-99 | every entry with the id leaves both lists |
| ServiceStore.StoreUpdateSpec | src/store/serviceStore.ts:76-79 | the update keeps length and ids, rewrites exactly the matching entries, and keeps ids unique |
| ServiceStore.MyServicesSpec | src/store/serviceStore.ts:43-45 | exactly the entries owned by `currentUser`, in order |
| Text.ContainsIff | src/store/serviceStore.ts:29 | `includes` holds iff the needle occurs at some position |
| Text.IntToStringRoundTrip | src/components/ServiceCard.tsx:50-52 | an integer rendered in a template literal parses back to itself |
| TimeAgo.Elapsed | src/components/ServiceCard.tsx:44-53 | minutes below one hour (negative for a future time), hours 1..23 below one day, days ≥ 1 from then on; the amount is the difference divided by the unit, rounded down |
| TimeAgo.RenderRoundTrip | src/components/ServiceCard.tsx:50-52 | the rendered span reads back to the span |
| Text.ParseIntExact | src/components/ServiceCard.tsx:50-52 | a text the integer parser accepts is exactly the rendering of its value (no leading zeros, no `-0`) |
| TimeAgo.ParseSpanExact | src/components/ServiceCard.tsx:50-52 | a text that reads back as a span is that span's rendering, character for character |
| TimeAgo.FormatTimeAgo | src/components/ServiceCard.tsx:41-53 | `N/A` for a missing or empty timestamp, `NaNd ago` for one that does not parse, otherwise a text that reads back to the elapsed span |
| TimeAgo.FormatDistinguishesCases | src/components/ServiceCard.tsx:41-53 | the result reads back to a span exactly when the timestamp is present and parses |
| ListQuery.ListStatementArity | backend/index.ts:70-88 | every statement is free of stray `?` and has as many placeholders as bound values |
| ListQuery.ListPlaceholders | backend/index.ts:70-91 | the SQL text has exactly one `?` per bound value, whatever the filters |
| ListQuery.ListFrame | backend/index.ts:70-88 | the SQL text starts with the active-rows base query and ends with the ordering |
| ListQuery.BuildListQuery | backend/index.ts:66-89 | the built text and parameters are those of the clause-by-clause statement for the truthy filters |
| Backend.ServerError | backend/index.ts:320-327 | a 500 carrying the exception's message, or `Internal Server Error` when that is empty |
| Backend.RouteOf | backend/index.ts:54-317 | each route is chosen exactly when its own test holds: OPTIONS for any path; GET or POST on the collection; GET, PUT or DELETE under `/api/services/` (GET only for paths not ending in `/my`); GET on `/api/services/my`; PATCH on a path ending in `/status`; otherwise no route |
| Backend.SegmentAfterPrefix | backend/index.ts:98-100 | under `/api/services/` the fourth part of the split path is the text up to the next slash |
| Backend.ItemSegmentDefined | backend/index.ts:189-190 | every path under `/api/services/` binds a defined id |
| Backend.ItemPathsRoute | backend/index.ts:98-317 | for every id, `GET /api/services/<id>` is the single-item GET and `GET /api/services/<id>/my` matches no route |
| Backend.Lookup | backend/index.ts:102-103 | a found id is in the table and, with the active filter, active |
| Backend.LookupById | backend/index.ts:193-194 | a decimal id finds its row exactly when the row exists (and is active, if asked) |
| Backend.Ownership | backend/index.ts:196-210 | owned iff found and the row's user is the caller; missing iff not found |
| Backend.OrNull | backend/index.ts:164-167 | a column is stored exactly when the body's value is non-empty, and then it is that value |
| Backend.NewRow | backend/index.ts:152-170 | the inserted row belongs to the caller, is active, has both timestamps equal to now, carries the body's category, type and title, and each optional column is the body's non-empty value or null |
| Backend.Merge | backend/index.ts:212-227 | owner, category, type, creation time and flag never change; the update time becomes now; the title becomes a non-empty body title and is kept otherwise, so a non-empty title is never lost |
| Backend.MergeIdempotent | backend/index.ts:219-227 | applying the same body twice equals applying it once |
| Backend.MergeNullable | backend/index.ts:221-224 | for each of description, contact number, contact name and location: a missing key keeps the column, `null` clears it, any other value is stored |
| Backend.MergeEmptyBody | backend/index.ts:219-227 | an empty body only refreshes the update time |
| Backend.ActiveFlag | backend/index.ts:304 | 1 exactly for a true `is_active`, else 0 |
| Backend.SoftDeleteHides | backend/index.ts:263-264 | after a soft delete the row stays, the active lookups (GET, PUT, DELETE) no longer find it, PATCH still does |
| Backend.OwnerCanReactivate | backend/index.ts:283-304 | the owner of an inactive row passes the PATCH checks and the row is then active again |
| Backend.CreatedIsVisible | backend/index.ts:152-170 | a row inserted under the next id is found by the single-item GET |
| Backend.Table.constructor | backend/index.ts:1-3 | an empty table whose next id is 1 |
| Backend.Table.List | backend/index.ts:65-94 | the reply carries the statement and parameters for the `category`, `type` and `search` query values |
| Backend.Table.GetOne | backend/index.ts:98-114 | the active row with that id, or 404 `SERVICE_NOT_FOUND` |
| Backend.Table.Mine | backend/index.ts:117-130 | 401 without a user, else exactly the ids of the caller's active rows |
| Backend.Table.Create | backend/index.ts:133-177 | 401 before the body is read; then a 500 for an unreadable or null body; then 400 unless category, type and title are non-empty; then one new active row under the next id; no change on any failure |
| Backend.Table.Edit | backend/index.ts:180-230 | 401, then the body is read, then 404, then 403; only an owned active row is merged |
| Backend.Table.Remove | backend/index.ts:232-267 | 401, then 404, then 403; only then is the flag set to 0, keeping the row |
| Backend.Table.SetStatus | backend/index.ts:270-311 | 401, then the body, then the id (an undefined id is a 500 with the driver's message), then 404 over all rows, then 403, then a null body is a 500 with the runtime's message; only then are flag and update time written, and the reply echoes the stored row |
| Backend.Table.Handle | backend/index.ts:49-327 | OPTIONS answered first and nothing changes; no route gives 404 `NOT_FOUND`; read routes and failures change nothing; a 500 is `INTERNAL_SERVER_ERROR`; the next id moves only on the create route; per route, with the id taken from the path: the list statement, the single row or 404, 401 or the caller's ids; for POST 401, a 500 for an unreadable or null body, 400, then the insert under the next id; for PUT, DELETE and PATCH 401, the body's 500, (PATCH) the unbound id's 500, 404, 403, the null body's 500, then the merge, the soft delete or the flag write; the table changes only for a caller who owns the row (POST: a caller with a complete body) |

## Left out

- Time, randomness and the network are parameters. `Date.now()` and ISO timestamps are passed in, and each API call's outcome is a `Transport` value.
- ServiceStore.Store.UpdateService: the source calls `new Date().toISOString()` once for every entry whose id matches, in each of the two lists, so matching entries may get `updated_at` values a tick apart. The model uses one `iso` reading for all of them. (`createService`'s three clock readings are all modelled: `now` for the id and separate readings for `created_at` and `updated_at`.)
- The retry sleeps are recorded, not awaited. The operation is given as the outcome of each successive call.
- Concurrency and React closures are not modelled. Interleaved intents and the stale `state.services` an intent captured are out of scope; each intent runs to completion alone.
- SQL execution is not modelled. The list routes return the statement and its parameters, or the set of matching ids, not the rows in `created_at` order. `LIKE` matching is not modelled.
- Backend.Lookup: a path segment finds a row only when it is all decimal digits. SQLite's conversion of other numeric-looking text (`7.0`, ` 7`) is not modelled.
- Backend.Body: the body keys category, type, title, description, contact_number, contact_name and location are modelled as strings, present as `null`, or missing. Other JSON values are not modelled. A falsy `0` or `false` would get the 400 like `""`, a number such as `5` passes the check and is bound as a number, and an object or array is truthy and goes to D1's `bind` unchanged.
- Backend.ActiveFlag: the PATCH body's `is_active` is modelled as a boolean or absent. Truthy non-boolean values are not modelled.
- The worker's CORS headers, JSON serialisation, response timestamps, `X-Is-Login` (read but unused) and console logging are not modelled. Neither is the commented-out second backend after line 329.
- `ServiceApi.initialize` (axios instance set-up) and the request URLs of the wrappers are not modelled.
- Retry.Resolve: a configuration key that is present with the value `undefined` overrides its default in the spread (and with `maxRetries` undefined the loop never runs and `undefined` is thrown). This is not modelled: `None` stands for a missing key.
- ServiceStore.KeepIff: the case mapping is ASCII-only (`Lower` maps only `A`..`Z`). JavaScript's Unicode `toLowerCase` is not modelled, including mappings that change length such as `İ`. For example, a title `Ärger` with search `ärger` is kept by the source but not by the model.
- Non-integer retry delays are out of scope: the configuration is natural numbers, on which `Math.ceil` is the identity.
- `formatPrice`, category styles and the presentational components are not part of this model.
- `src/types/service.ts` is not part of this model. Only its record and enum shapes are used.
- ListQuery.BuildListQuery appends the clauses as pieces and `?` placeholders and renders the text once at the end, while the source appends text clause by clause. The text is the same.
