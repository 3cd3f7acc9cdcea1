# Task-list API core, modelled in Dafny

This project models the request logic of a small Go REST service for to-do tasks:

- **Pagination.** How a listing request's query string becomes validated paging parameters (`page`, `limit`, `sort_by`, `order`, the derived offset), and how the page count of the paginated envelope is computed.
- **Task store.** The SQL statements the store sends, in what order and with which bound parameters. How rows are scanned back into tasks, and how errors and counts come back to the caller.
- **HTTP handlers.** The decisions of the four task handlers: list, create, update and delete. The update handler checks the path id, reads the existing task, checks the body, the payload and the new owner, fills absent fields from the existing task, writes, and reads the task back.

Modules, one per source concern:

- `GoInt`: Go's 64-bit `int`, with its range, wrap-around and truncating division.
- `Strconv`: `strconv.Atoi` and `strconv.Itoa`.
- `Strings`: `strings.ToLower` on ASCII letters.
- `Wrappers`: `Option` and `Result`.
- `Types`: the records `Task`, `CreateTaskPayload`, `UpdateTaskPayload` and `User`.
- `Pagination`: utils/pagination.go.
- `TaskStore`: services/task/store.go.
- `TaskRoutes`: services/task/routes.go.

How the code is modelled:

- **Imperative code stays imperative.** `ParsePaginationParams`, the store's row loops and the handlers are methods with loops and early returns. Each method is proved equal to a pure function (`Parse`, `ScanAll`, `TaskOf`, `ListingOf`, `MergeUpdate`, `UpdateRejection`, `DeleteResponse`), and the lemmas state what the source promises about those functions.
- **The database.** It is a `Store` object holding the tasks table, a log of every statement sent, and an `Engine`. The engine is an arbitrary function from a statement and the table to an answer. Every property therefore holds whatever the SQL engine does. What is proved is the store's own policy: SQL text, parameter order, scan order, error and zero-value propagation.
- **The validator.** The struct-tag validator is an arbitrary predicate held by the `Handler`.
- **The user store.** It is a map from id to user.
- **Responses.** A response is a status code plus a body value.

Places where the code behaves otherwise than a client of a REST task API would expect. The model follows the code:

- **Update of a missing task.** The handler's existence check (services/task/routes.go:87-91) evidently means to answer 404 for an id with no task. But `GetTaskByID` returns a zero-valued task and no error when no row matches (`TaskStore.TaskOf`, `TaskStore.Store.GetTaskByID`), so the check lets a missing id through. The update then runs and the response is 200 with whatever the read-back yields.
- **Owner on update.** Every other absent field of an update is filled from the existing task (services/task/routes.go:113-127), but `user_id` is not. An update that leaves `user_id` out therefore writes NULL as the owner (`TaskRoutes.MergeOwnerFromRequest`).
- **Create response.** A 201 answer usually carries the created resource. The handler echoes the request's payload (services/task/routes.go:69), so the `"pending"` default applied inside the store (services/task/store.go:69-71) is not visible in the response (`TaskRoutes.Handler.HandleCreateTask`).
- **Default sort key.** The default is `createdAt`, which is not one of the column names (`created_at`). It is spliced into `ORDER BY` unchecked.

## Model

| member | source | states |
|---|---|---|
| GoInt.Wrap | utils/pagination.go:74 | the value a Go `int` holds after an operation: in the 64-bit range, congruent to the exact result modulo 2^64, and equal to it when that fits |
| GoInt.Quo | utils/pagination.go:86 | Go's integer division by a positive divisor rounds toward zero: the quotient brackets the dividend from below for non-negative and from above for negative dividends |
| Strconv.Atoi | utils/pagination.go:37 | an accepted text is a non-empty signed decimal whose value fits in 64 bits; the value is negative exactly when the text has a minus sign and a non-zero magnitude |
| Strconv.AtoiItoa | utils/pagination.go:37 | every 64-bit integer written in decimal is read back as itself, and that text is canonical |
| Strconv.ItoaAtoi | services/task/routes.go:82 | every canonical text `Atoi` accepts is exactly the decimal text of its value |
| Strings.ToLower | utils/pagination.go:66 | lower-casing keeps the length and maps every character through the ASCII lower-case map |
| Strings.ToLowerIsWord | utils/pagination.go:66-69 | lower-casing gives a lower-case word exactly when the input spells that word in any mix of cases (both directions) |
| Pagination.Parse | utils/pagination.go:26-83 | on success page and limit lie in 1..MaxInt64, the sort key is the default or whitelisted, the order is asc or desc; it fails exactly when the sort key or the order is rejected |
| Pagination.ParsePaginationParams | utils/pagination.go:26-83 | the step-by-step parse with its whitelist loop returns exactly what `Parse` defines |
| Pagination.ParsePage | utils/pagination.go:30-40 | page is `Atoi`'s value when that is a positive integer, and 1 when the text is absent, empty, not an `int` or not positive |
| Pagination.ParseAnyPage | utils/pagination.go:36-40 | any positive 64-bit page written in decimal is accepted and becomes the page |
| Pagination.ParseLimit | utils/pagination.go:31-47 | limit is `Atoi`'s value when that is a positive integer, and 10 when the text is absent, empty, not an `int` or not positive |
| Pagination.PagingNeverFails | utils/pagination.go:36-47 | no value of `page` or `limit` changes whether parsing fails, nor the error returned |
| Pagination.ParseSortBy | utils/pagination.go:32-63 | a non-empty sort key outside the whitelist is rejected whatever the order holds (the sort check comes first); an accepted one is used; an absent one gives the unchecked default |
| Pagination.ParseOrder | utils/pagination.go:33-71 | "desc" in any case gives desc, empty or "asc" in any case gives asc, anything else is the order error |
| Pagination.ParseOffset | utils/pagination.go:74 | the offset is (page-1)*limit, non-negative, and a multiple of the limit whose quotient is page-1 |
| Pagination.TotalPages | utils/pagination.go:86 | the page count the listing answers: zero rows give zero pages, up to one full page gives one page, and a non-negative total never gives a negative count |
| Pagination.TotalPagesIsCeiling | utils/pagination.go:86 | the page count times the limit covers the total, one page fewer does not, zero rows give zero pages and never more pages than rows |
| Pagination.TotalPagesAsWritten | utils/pagination.go:86 | the source's `(total + limit - 1) / limit` in 64-bit arithmetic with truncating division |
| Pagination.TotalPagesAgree | utils/pagination.go:86 | for a non-negative total whose sum with the limit does not overflow, the source's expression equals the ceiling |
| Pagination.TotalPagesAsWrittenOverflows | utils/pagination.go:86 | 2 tasks with limit MaxInt64 give -1 pages as written and 1 page corrected |
| Pagination.OffsetAsWritten | utils/pagination.go:74 | the source's `(page - 1) * limit` in 64-bit arithmetic: always a 64-bit value, equal to the exact product when that fits |
| Pagination.OffsetAsWrittenOverflows | utils/pagination.go:74 | from any accepted query, setting page 4611686018427387904 and limit 4 is still accepted; the exact offset exceeds MaxInt64, and as written it is -4 |
| TaskStore.ScanTask | services/task/store.go:102-122 | a row scans exactly when it is the row of some task, and the scanned task's row is the row itself |
| TaskStore.ScanTaskRow | services/task/store.go:102-122 | scanning the row of a task gives that task back |
| TaskStore.ScanAll | services/task/store.go:56-63 | succeeds exactly when every row scans, with one task per row in order; otherwise fails with the error of the first failing row |
| TaskStore.ScanAllErrSticks | services/task/store.go:25-29 | once a prefix fails to scan, the whole result fails with the same error |
| TaskStore.TaskOf | services/task/store.go:18-33 | the query error is returned; zero rows give the zero-valued task with no error; otherwise the last row wins; a scan failure fails the read with that row's error |
| TaskStore.CountOf | services/task/store.go:37-40 | a query error is passed on; an empty answer is the iteration error or no-rows; the count succeeds exactly when the first row is a single 64-bit integer column, and is that column's value |
| TaskStore.ListingOf | services/task/store.go:35-66 | any error gives no tasks and total 0, and the error is the count's, else the listing query's, else the first failing row's; without error total is the count and the tasks are the listing rows, one per row in order |
| TaskStore.ListSql | services/task/store.go:43-47 | the listing text is the fixed head, the sort key, a space, the order and the fixed tail, each recoverable at its position |
| TaskStore.ListStatement | services/task/store.go:43-49 | the listing statement splices the sort key then the order into the text and binds limit, then offset, as its two values |
| TaskStore.TotalIgnoresListing | services/task/store.go:37-40 | the total does not depend on which page is listed |
| TaskStore.WithDefaultStatus | services/task/store.go:69-71 | an empty status becomes "pending" and nothing else changes; a non-empty status leaves the payload as it is |
| TaskStore.DeleteOutcome | services/task/store.go:88-100 | a failed exec gives 0 with its error; an unreadable affected-row count gives 0 with that error; otherwise the count with no error |
| TaskStore.InsertBindsColumns | services/task/store.go:73-75 | the insert binds six values, and the i-th is the stored row's value under the i-th column the statement names (user_id, title, description, status, priority, due_date) |
| TaskStore.CreateBindsPending | services/task/store.go:69-75 | a create without a status binds "pending" to the status column and every other column as sent |
| TaskStore.UpdateBindsColumns | services/task/store.go:80-85 | the update binds seven values: the i-th SET column's value from the row it leaves, then the task id last, for the WHERE clause |
| TaskStore.Store.constructor | services/task/store.go:14-16 | a store over a given engine and table, with nothing sent yet |
| TaskStore.Store.GetTaskByID | services/task/store.go:18-33 | sends the select by id and returns what `TaskOf` defines for the engine's answer; the row loop is proved against `ScanAll` |
| TaskStore.Store.GetPaginatedTasks | services/task/store.go:35-66 | sends the count and, when it succeeds, the listing statement with limit then offset bound; returns what `ListingOf` defines |
| TaskStore.Store.CreateTask | services/task/store.go:68-78 | sends the insert of the payload with the status default applied, returns the engine's error and keeps the table when it fails |
| TaskStore.Store.UpdateTask | services/task/store.go:80-86 | sends the update of the six fields with the id last, returns the engine's error and keeps the table when it fails |
| TaskStore.Store.DeleteTask | services/task/store.go:88-100 | sends the delete and returns what `DeleteOutcome` defines |
| TaskRoutes.TaskIdOf | services/task/routes.go:75-86 | a missing path variable is "missing task ID", a value `Atoi` rejects is "invalid task ID", otherwise the id is `Atoi`'s value |
| TaskRoutes.MergeUpdate | services/task/routes.go:113-127 | title, description, status and priority come from the payload when present and from the existing task otherwise; due date likewise, staying nil when both are nil; the owner is the payload's |
| TaskRoutes.FillFromExisting | services/task/routes.go:113-127 | the five in-place fills give exactly `MergeUpdate` |
| TaskRoutes.MergeNothingSet | services/task/routes.go:113-129 | an all-absent payload writes back every merged column of the existing task, and NULL as its owner |
| TaskRoutes.MergeOneField | services/task/routes.go:113-127 | a payload that sets one field writes that field's value and the existing value of every other merged field |
| TaskRoutes.MergePriorityOnly | services/task/routes.go:113-129 | an update of the priority alone binds the existing title, description, status and due date with the new priority |
| TaskRoutes.MergeIdempotent | services/task/routes.go:113-127 | merging twice against the same task is merging once |
| TaskRoutes.MergeComplete | services/task/routes.go:113-127 | a payload that sets every merged field is persisted as sent, whatever the existing task holds |
| TaskRoutes.MergeOwnerFromRequest | services/task/routes.go:104-129 | the owner column is bound from the request alone; a payload without one writes NULL |
| TaskRoutes.ListingResponse | services/task/routes.go:41-47 | a store error answers 500 with the wrapped error; a listing without error answers 200 with page, limit, total, the tasks and the ceiling of total over limit as page count, which is what the source's expression gives for a non-negative total whose sum does not overflow |
| TaskRoutes.UpdateRejection | services/task/routes.go:87-111 | a failed read is 404 with the store error; after a good read an undecodable body is 400 and an invalid payload is 400; an unknown new owner is 404; it goes on to write exactly when the read, the body and the payload are good and any new owner exists |
| TaskRoutes.DeleteResponse | services/task/routes.go:153-163 | 500 exactly on a store error, with the wrapped error; 404 "task not found" exactly when no row was affected; 204 exactly otherwise |
| TaskRoutes.ListTextIsFixed | services/task/routes.go:33-41 | every accepted listing request sends one of the fixed texts built from a whitelisted key or the default and asc or desc |
| TaskRoutes.ListTextIgnoresPaging | services/task/store.go:43-49 | two queries that agree on sort_by and on the lower-cased order are accepted together and send the same text, whatever their page and limit |
| TaskRoutes.SecondPageOfTwelve | services/task/routes.go:32-47 | page 2 of limit 5 asks from offset 5 and, over 12 tasks, reports 3 pages |
| TaskRoutes.UserStore.constructor | types/types.go:14-18 | a user store holding the given users |
| TaskRoutes.UserStore.GetUserByID | types/types.go:15 | finds a user exactly when the id is known, and returns that user |
| TaskRoutes.Handler.constructor | services/task/routes.go:21-23 | a handler over the given stores and validator |
| TaskRoutes.Handler.HandleGetTasks | services/task/routes.go:32-48 | a parse error answers 400 and sends nothing; otherwise sends what `GetPaginatedTasks` sends and answers `ListingResponse`; never changes the table |
| TaskRoutes.Handler.HandleCreateTask | services/task/routes.go:50-70 | an undecodable or invalid body answers 400 and leaves the store alone; otherwise inserts with the status default, answers 500 on an error and 201 echoing the request's payload |
| TaskRoutes.Handler.HandleUpdateTask | services/task/routes.go:72-137 | a bad id answers 400 and leaves the store alone; a rejection answers `UpdateRejection` after reading only; otherwise writes the merged payload, answers 500 on a write error, or re-reads and answers 200 with the task read back, or a null body when that read fails |
| TaskRoutes.Handler.HandleDeleteTask | services/task/routes.go:139-164 | a bad id answers 400 and leaves the store alone; otherwise deletes and answers `DeleteResponse` of the outcome |

## Left out

- TaskRoutes.ListingResponse: the page count it reports, and so the one `TaskRoutes.Handler.HandleGetTasks` answers, is the corrected ceiling. The source's wrapped `(total + limit - 1) / limit` can differ from it when that sum overflows, for a limit near MaxInt64 (see Findings). The contract states that both agree for every non-negative total whose sum does not overflow.
- HTTP plumbing is not modelled: `mux` routing, `RegisterRoutes`, the response writer, JSON decoding and encoding, and `WriteError`. A request is its query map, path variables and decoded body (`None` when decoding fails). A response is a status code and a body value. Error messages are kept as causes, not as formatted text.
- JWT authentication (`auth.WithJWTAuth`) is not modelled. It wraps every route, and its code is not part of this model.
- The struct-tag validator is not modelled. Its rules live in a library and in tags. It is an arbitrary predicate that may reject any payload.
- SQL semantics (what `ORDER BY`, `LIMIT`/`OFFSET`, `COUNT(*)`, `INSERT`, `UPDATE` and `DELETE` do to the table) are not modelled. The engine is an arbitrary function, so every property holds for any behaviour of the database.
- Scanning is modelled as exact kind matching: NULL only into the nullable columns, integers into integer columns, text into strings, times into the time columns. The driver's cross-kind conversions (text into an integer, for example) are not modelled.
- `time.Time` is an integer. No time arithmetic happens in the core, and the database assigns the creation and update times.
- `strings.ToLower` is modelled for ASCII letters only. Unicode case mapping is not modelled.
- `strconv.Atoi` is modelled by what it accepts and returns, not by its digit loop. Its two errors, bad syntax and out of range, are both `None`.
- The difference between a nil slice and an empty slice (`null` or `[]` as the JSON `data` of an empty page) is not modelled. Both are the empty sequence.
- `rows.Err()` is not modelled. The row loops never consult it, so an iteration error after the last row is ignored (the `iterErr` of a query answer is unused there).
- Concurrency is not modelled. The read-then-write in the update handler is treated as sequential.
- The user store is a map from id to user. Its SQL implementation is not part of the core, and neither are `GetUserByEmail` and `CreateUser`.
- cmd/api/api.go and the server wiring are not modelled. They hold no logic of the core.
- `OffsetAsWritten` is not used by the store: the model binds the exact offset of `Parse`, as the function is evidently meant to compute (see Findings).

## Findings

| source | as written | input that shows it | evidently intended | confidence | as-written member | corrected member |
|---|---|---|---|---|---|---|
| utils/pagination.go:86 | `totalPages := (total + limit - 1)/limit` overflows in 64-bit `int` for a large limit | total 2, `limit=9223372036854775807`: the sum wraps to a negative number and the page count is -1 | the ceiling of total over limit, which is 1 | not executed | Pagination.TotalPagesAsWrittenOverflows | Pagination.TotalPagesIsCeiling |
| utils/pagination.go:74 | `offset := (page - 1) * limit` overflows in 64-bit `int`; page and limit are only checked to be positive | `page=4611686018427387904&limit=4`: the product wraps and the offset is -4 | the exact offset (page-1)*limit, which is never negative | not executed | Pagination.OffsetAsWrittenOverflows | Pagination.ParseOffset |
