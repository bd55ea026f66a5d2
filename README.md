# todo-api: a verified model of the task service core

todo-api is a small three-layer task CRUD service written in Go. HTTP handlers
(gin) parse the request and call a validation service. The service checks its
inputs and delegates to a PostgreSQL repository. This project models the
decision logic of the three layers in Dafny and proves what each promises:

- `entity.dfy`: the `Task` record. The model reads a `Date` only through
  `IsZero`.
- `ports.dfy`: the shapes shared between layers.
  - The error kinds: the service's `ErrInvalidData`; `NoRows`, meaning any
    error `errors.Is` matches to `sql.ErrNoRows`; and any other backend
    error.
  - Go's `(value, error)` replies.
  - A log of calls from one layer to the next.
  - The two five-method interfaces, as records of functions.
- `sqltext.dfy`: how Go renders a parameter number with `%d`, and a scanner
  that reads the `$n` placeholders back out of a statement the way
  PostgreSQL does (a placeholder takes every digit after its `$`). Lemmas
  show how placeholders behave when statement text is joined.
- `repository.dfy`: the SQL repository.
  - The statement each operation issues.
  - The error sentinels of the single-row operations.
  - `GetTaskList` as the imperative code it is: a method that grows the
    WHERE clause, the placeholder count and the argument list step by step,
    and a loop over the result rows.
  - Both are proved against specification functions. The central invariant:
    the placeholders of every statement are exactly `$1..$n` for its `n`
    arguments, in argument order.
  - The database is an input: what it answers to each statement.
- `service.dfy`: the five validation guards. Each rejects with
  `ErrInvalidData` without calling the repository, or forwards the identical
  arguments once and returns the answer unchanged. One lemma states this
  for all five operations at once.
- `handler.dfy`: the handlers without gin.
  - `strconv.Atoi` is modelled. The decoded body is an input: a task, or a
    body that does not decode. The framework is not modelled.
  - The status code and body each handler writes, and its single service
    call. Each handler is a function with one response, so every path
    writes exactly one status.
  - The list offset `(page - 1) * pageSize` in 64-bit arithmetic.
  - End-to-end lemmas through the real service.

Behaviours of the code worth noting:

- internal/handler/handler.go:184-185 discards the `Atoi` error. A `page` or
  `pageSize` that `Atoi` rejects as bad syntax therefore becomes 0; the
  default applies only when the parameter is absent. Through the service this
  always yields 400 (`Handler.ListBadSyntaxIsBadRequest`). A run of digits
  beyond 2^64 - 1 is out of range even when other characters follow it, so
  such a page becomes the largest int64 instead, or the smallest after a minus
  sign (`Handler.AtoiOverflowComesFirst`).
- The list handler answers `ErrInvalidData` with 400
  (internal/handler/handler.go:197-200). Create and get answer every service
  error with 500 (internal/handler/handler.go:52-55, 81-84), and update and
  delete answer every error except `sql.ErrNoRows` with 500
  (internal/handler/handler.go:123-126, 156-159). So an invalid task or id is
  a 500 there.
- The update and delete handlers answer 404 whenever the repository passes
  on an error matching `sql.ErrNoRows` (internal/handler/handler.go:128-131,
  161-164), although their annotations at lines 103-105 and 143-145 list no
  404. The get handler's 404 branch at line 86 is unreachable, because any
  error has already been answered at line 81 (`Handler.GetTask`).
- A list with no rows is a nil slice in Go (internal/repository/task.go:80),
  which is written as JSON `null` rather than `[]`.

## Model

| member | source | states |
|---|---|---|
| SqlText.DecimalRoundTrip | internal/repository/task.go:54 | reading back the digits `%d` writes for n gives n |
| SqlText.DecimalInjective | internal/repository/task.go:54 | distinct parameter numbers render as distinct digit strings |
| SqlText.PlaceholdersTakeParam | internal/repository/task.go:64 | a rendered `$n` followed by a non-digit is read as exactly the placeholder n |
| SqlText.PlaceholdersConcat | internal/repository/task.go:69 | joining text that does not start with a digit neither merges nor splits placeholders: the placeholders of a join are the placeholders of the parts |
| Repository.InsertStatement | internal/repository/task.go:10 | the INSERT binds title, description, date, completed to `$1..$4` in that order, and its placeholders are exactly `$1..$4` |
| Repository.SelectStatement | internal/repository/task.go:20 | the SELECT by id binds the id to `$1`, its only placeholder |
| Repository.UpdateStatement | internal/repository/task.go:29 | the UPDATE binds the four columns to `$1..$4` and the id to `$5`, its placeholders exactly `$1..$5` |
| Repository.DeleteStatement | internal/repository/task.go:38 | the DELETE binds the id to `$1`, its only placeholder |
| Repository.InsertTask | internal/repository/task.go:8-16 | no error iff the scan of the generated id succeeds; on error the id is -1 and the error is the scan's, unchanged; otherwise the scanned id |
| Repository.GetTask | internal/repository/task.go:18-26 | no error iff the row scans; on error no task (nil) and the scan's error unchanged; otherwise the scanned task |
| Repository.UpdateTask | internal/repository/task.go:28-35 | the reply is the scan's error unchanged, and nil when the scan reports none |
| Repository.DeleteTask | internal/repository/task.go:37-44 | the reply is the scan's error unchanged, and nil when the scan reports none |
| Repository.CompletedNumbered | internal/repository/task.go:52-58 | the completion clause holds `$1` when a completion filter is given and no placeholder when it is not, and starts with a space |
| Repository.WhereNumbered | internal/repository/task.go:52-67 | the WHERE clause holds exactly one placeholder per filter value, numbered from 1 in argument order; the date placeholder follows the completion one |
| Repository.ListNumbered | internal/repository/task.go:69 | the whole list query reads back exactly `$1..$(n+2)` for n filter values: LIMIT and OFFSET take the two numbers after the filters |
| Repository.ListStatement | internal/repository/task.go:46-74 | the executed statement is numbered (placeholders exactly `$1..$|args|`, in order) and its last two arguments are the page size, then the offset |
| Repository.BuildListQuery | internal/repository/task.go:47-69 | the step-by-step construction (count, WHERE clause and arguments grown together, AND always emitted) yields exactly the specified list query and the arguments filters ++ [pageSize, offset] |
| Repository.ListStatementShapes | internal/repository/task.go:52-69 | the four statements, one per combination of filters: no-op predicate and no argument without a completion filter, ` WHERE completed = $1` with it, ` AND date = $n` after them, then LIMIT and OFFSET |
| Repository.ListArgsShapes | internal/repository/task.go:55-74 | the argument list for each combination of filters: completion value, date value, page size, offset, in that order |
| Repository.DefaultListStatement | internal/repository/task_test.go:131-135 | offset 0, no filters, page size 10 give the statement text the test expects, with arguments (10, 0) |
| Repository.CollectedAllScanned | internal/repository/task.go:80-90 | when every row scans, the result is every row's task in row order |
| Repository.CollectedFirstFailure | internal/repository/task.go:81-86 | the first row that fails to scan decides the result: its error and no tasks |
| Repository.FirstFailureExists | internal/repository/task.go:81-86 | if any row fails to scan, the result is an error |
| Repository.CollectRows | internal/repository/task.go:80-90 | the row loop returns exactly what walking the rows specifies: all tasks in order, or the first scan error |
| Repository.GetTaskList | internal/repository/task.go:46-91 | builds the statement, runs it and collects the rows, answering exactly the list reply specified for the database |
| Repository.ListTasksMeaning | internal/repository/task.go:74-90 | the list succeeds iff the query runs and every row scans; then it holds every row's task in order; a query error is returned unchanged; the first scan failure decides the error; an error never comes with a partial list |
| Repository.TwoRowsExample | internal/repository/task_test.go:127-137 | two rows that scan give the two tasks, in row order, without error |
| Service.CreateTask | internal/service/task.go:10-16 | an empty title or zero date gives (-1, ErrInvalidData) with no repository call; otherwise one InsertTask call with the same task, whose reply is returned unchanged |
| Service.GetTask | internal/service/task.go:18-24 | id <= 0 gives (nil, ErrInvalidData) with no repository call; otherwise one GetTask call with that id, reply unchanged |
| Service.UpdateTask | internal/service/task.go:26-32 | an empty title, a zero date or id <= 0 each suffices for ErrInvalidData with no repository call; otherwise one UpdateTask call with the same id and task, error unchanged |
| Service.DeleteTask | internal/service/task.go:34-40 | id <= 0 gives ErrInvalidData with no repository call; otherwise one DeleteTask call with that id, error unchanged |
| Service.GetTaskList | internal/service/task.go:42-48 | offset < 0 or page size <= 0 gives (nil, ErrInvalidData) with no repository call; otherwise one GetTaskList call with the four arguments, reply unchanged |
| Service.ServeForwardsAdmitted | internal/service/task.go:10-48 | for every operation: an admitted request is forwarded once, verbatim, to the same-named repository method and its answer returned unchanged; any other request is answered with the operation's ErrInvalidData reply and an empty call log |
| Service.RejectionIndependentOfRepository | internal/service/task.go:10-48 | every request makes at most one repository call, how many does not depend on the repository, and a rejection is the same whatever the repository |
| Service.InvalidDataMeansRejected | internal/service/task.go:10-48 | when the repository does not itself answer ErrInvalidData, the service answers ErrInvalidData iff its guard rejected the request, iff it made no repository call |
| Service.CreateErrorSentinel | internal/service/task.go:10-16 | over the SQL repository, every failed create carries the id -1, whichever layer failed |
| Service.GetErrorSentinel | internal/service/task.go:18-24 | over the SQL repository, every failed get carries no task, whichever layer failed |
| Service.ListErrorSentinel | internal/service/task.go:42-48 | over the SQL repository, every failed list carries no task, whichever layer failed |
| Handler.Wrap64 | internal/handler/handler.go:189 | the result is a 64-bit integer congruent to the input modulo 2^64, and equals the input when it fits |
| Handler.Atoi | internal/handler/handler.go:74 | a sign then digits only is a number when its value fits in 64 bits and a range error when it does not; a number is the value of the whole string, an optional sign then digits only, and always in 64-bit range; a range error clamps to the smallest int64 for a minus sign and to the largest otherwise; a missing digit is a syntax error; a leading digit run beyond 2^64 - 1 is a range error whatever follows it; any other non-digit is a syntax error |
| Handler.AtoiOverflowComesFirst | internal/handler/handler.go:74 | digits beyond 2^64 - 1 followed by a non-digit give the clamped range error, signed or not; digits that fit followed by a non-digit give a syntax error |
| Handler.AtoiOfDecimal | internal/handler/handler.go:74 | parsing a decimal written with or without a minus sign gives that number back; beyond int64 it is a range error clamped to the maximum, or to the minimum after a minus sign |
| Handler.ValueIgnoringError | internal/handler/handler.go:184-185 | a discarded Atoi error leaves 0 for bad syntax and the clamped value out of range |
| Handler.DefaultQuery | internal/handler/handler.go:184-187 | a present key gives its value, even an empty one; an absent key gives the default |
| Handler.CreateTask | internal/handler/handler.go:41-58 | the status is 201, 400 or 500; 400 iff the body does not decode, then with no service call; otherwise one CreateTask call, 500 iff the service reports any error (ErrInvalidData included), and 201 carries the returned id |
| Handler.GetTask | internal/handler/handler.go:72-92 | the status is 200, 400 or 500 and never 404; 400 iff the id does not parse, then with no service call; otherwise one GetTask call with the parsed id, 500 iff it reports an error, and 200 carries the task |
| Handler.Outcome | internal/handler/handler.go:122-133 | an error matching sql.ErrNoRows is 404, any other error 500, and nil is 200 carrying the path id |
| Handler.UpdateTask | internal/handler/handler.go:107-134 | the status is 200, 400, 404 or 500; 400 iff the id does not parse or the body does not decode, then with no service call; otherwise one UpdateTask call, the status decided by its error as in Outcome |
| Handler.DeleteTask | internal/handler/handler.go:147-167 | the status is 200, 400, 404 or 500; 400 iff the id does not parse, then with no service call; otherwise one DeleteTask call, the status decided as in Outcome |
| Handler.GetTaskList | internal/handler/handler.go:183-203 | exactly one GetTaskList call, with the offset computed from page and page size; 400 iff the service reports ErrInvalidData, 500 iff any other error, 200 with the tasks iff no error |
| Handler.OffsetExact | internal/handler/handler.go:189 | without overflow the offset is the mathematical (page - 1) * pageSize |
| Handler.OffsetWrapsAround | internal/handler/handler.go:189 | the product wraps around: page 2^62 + 1 of size 4 gets offset 0, the same as page 1 |
| Handler.ListDefaults | internal/handler/handler_test.go:153-156 | with no paging parameters, or with page=1 and pageSize=10, the service is asked for (0, "", 10, "") |
| Handler.ListBadSyntaxPage | internal/handler/handler.go:184-189 | a page Atoi rejects as bad syntax counts as page 0, so the offset is (0 - 1) * pageSize, which the service always refuses |
| Handler.ListBadSyntaxPageSize | internal/handler/handler.go:185 | a page size Atoi rejects as bad syntax counts as 0, which the service refuses |
| Handler.ListBadSyntaxIsBadRequest | internal/handler/handler.go:184-200 | through the real service, a page or page size Atoi rejects as bad syntax is answered 400 and the repository is never called |
| Handler.CreateInvalidIsServerError | internal/handler/handler.go:50-55 | through the real service, a task with no title or a zero date is answered 500, not 400, and the repository is never called |
| Handler.NonPositiveIdIsServerError | internal/handler/handler.go:72-167 | through the real service, a parsed id <= 0 is answered 500 by get, update and delete alike, with no repository call |

## Left out

- The gin framework is not modelled: routing, swagger annotations, JSON encoding and decoding. A body either decodes to a task or does not.
- The texts of `strconv` and gin parse errors are not modelled. Such a reply is a 400 with an unspecified error body.
- Executing SQL is not modelled. What the database answers to each statement (a generated id, a row, a scan error or a list of rows) is an input. So is whether `Scan()` reports `sql.ErrNoRows`: database/sql's `Row.Scan` returns it whenever the statement yielded no row, as an UPDATE or DELETE without `RETURNING` does, and the model takes that answer from the database input rather than deriving it.
- `rows.Err()` is never consulted by the code, and `rows.Close()` is deferred. The rows are exactly what `rows.Next` yields.
- `Repository.ListTasks`: a nil slice and an empty slice are both the empty sequence. In Go, a list with no rows encodes as JSON `null`.
- `Entity.Date`: `time.Time` internals are not modelled. The model reads a date only through `IsZero`; `ticks` only tells dates apart.
- The `fmt.Println` debug output of the list query and its arguments (internal/repository/task.go:71-72) is I/O only.
- Error message bodies: a service error is written with its message; the messages of driver errors are an input.
- Connection setup and its 10-second ping (internal/repository/postgres/connection.go), and the wiring in cmd/main.go, internal/repository/repository.go and configs/config.go, are not part of this model.
- `Handler.Atoi` models `strconv.Atoi` for a 64-bit `int`, reading digits left to right as `strconv.ParseUint` does; the strconv source is not part of this model, and the text of its errors is not modelled.
- Concurrency between requests is not modelled. Each request is handled independently.
