# Society service backend: reply envelope, health checks, middleware and configuration

This project models the part of the Go backend that decides what every HTTP
reply holds:

- **The reply envelope** (`Response`). The three builders are
  `RespondSuccess`, `RespondError` and `RespondPaginated`. Each one is a
  function from its arguments, the request's key store and one clock reading
  to the status code and the JSON object the client receives. A field tagged
  `omitempty` is an `Option`. The `meta` and `metadata` pointers are
  `Option`s too, so "always present" is something proved, not a given of the
  types. The page count uses Go's truncating `/` and `%`, written out
  explicitly, including the wrap-around of `MinInt64 / -1`.
- **Liveness and readiness** (`Health`). The database handle and its probe
  become one three-way input: not configured, probe succeeded, or probe
  failed. A timeout and a probe error are the same case. `Health` is a method
  that fills the services map and then scans it in a loop with an early
  exit. It is proved equal to a reference definition: the status is unhealthy
  iff some service is. `Ready` is a function.
- **The middleware chain** (`Middleware`). gin's request context is a class,
  `Context`, with these fields:
  - the key store, the response headers, the list of `c.JSON` writes and the
    log lines;
  - gin's handler index;
  - a ghost trace of the handlers that started.

  `Next`, `Recovery`, `Logger` and the route handler are mutually recursive
  methods that change those fields. Each one is proved equal to a function
  on a value copy of the context (`State`). A handler either returns or
  panics. A panic unwinds to the nearest `Recovery`. Lemmas follow one
  request through the chain of `backend/cmd/api/main.go` (Recovery, then
  Logger, then the route) and state what the client receives and what is
  logged.
- **Configuration defaulting** (`Config`). The environment is a map, and a
  missing variable reads as `""`. `getEnv` and `getEnvInt` are lookups with a
  default. `strconv.Atoi` is an exact base-10 parser: an optional sign, at
  least one ASCII digit, and a value in the 64-bit range. `Itoa` is its proved
  inverse. `Load` is the record of fifteen lookups.

Values that come from outside are parameters:

- the clock reading (`now`);
- the identifier `uuid.New()` returns (`LoggerMw(requestId)`);
- the probe outcome (`Probe`);
- the request's method and path.

gin and Go semantics that the model relies on:

- `c.Abort()` sets the index to 63. gin refuses chains that long, so an
  aborted `c.Next()` loop always stops.
- `c.Writer.Status()` is the status of the first write, or 200 when nothing
  has been written.
- `c.Header(k, "")` deletes the header.
- `requestID[:8]` panics when the id is shorter than eight bytes. The model
  counts characters, which is the same for the ASCII ids `uuid.New()`
  produces (see "## Left out").
- A `RespondPaginated` with `limit == 0` panics with a division by zero. The
  builder itself requires `limit != 0`. In the chain, that route panics and
  Recovery answers 500.
- A recovered panic value is never nil: a route's `panic(nil)` raises a
  `*runtime.PanicNilError` (`PanicValue`). This is the behaviour of Go 1.21
  and later, assumed here (see "## Left out").

## Model

| member | source | states |
|---|---|---|
| Response.RespondSuccess | backend/internal/utils/response.go:51-64 | the status passes through; `success` is true; `data` is omitted exactly when nil and `message` exactly when empty, otherwise each is the argument; `meta` is always present with the clock reading; its `request_id` is present exactly when the key store holds a non-empty string under `request_id`, and then it is that string |
| Response.RespondError | backend/internal/utils/response.go:66-82 | the status passes through; `success` is false; code and message are copied; `details` is omitted exactly when nil; `metadata` is always present with the clock reading, and its request id follows the key store as for success |
| Response.RespondPaginated | backend/internal/utils/response.go:84-100 | the status, `data` (with no omission), page, limit and total are copied; for `limit > 0` and `total >= 0`, `total_pages` is the ceiling of total/limit; a zero limit is the caller's duty, since Go's division panics on it |
| Response.GoDivisionLaw | backend/internal/utils/response.go:85-86 | the modelled Go `/` and `%` satisfy `a == b*q + r`; the remainder is smaller than the divisor in magnitude and carries the dividend's sign; the one exception is the wrapping `MinInt64 / -1` |
| Response.GoDivisionNonNegative | backend/internal/utils/response.go:85-86 | for a non-negative dividend and a positive divisor, Go's `/` and `%` agree with Euclidean division |
| Response.TotalPages | backend/internal/utils/response.go:85-88 | the quotient-then-increment expression, on Go's truncating division, equals the ceiling `(total + limit - 1) / limit` for `limit > 0` and `total >= 0` |
| Response.TotalPagesBounds | backend/internal/utils/response.go:85-88 | the page count is non-negative and covers every item; the last page is non-empty when there are items; there are zero pages iff there are zero items |
| Response.PageCount | backend/internal/utils/response.go:85-88 | the same bounds, stated on a quotient and remainder of the division equation |
| Response.TotalPagesExamples | backend/internal/utils/response.go:85-88 | 25 items of 10 per page give 3 pages, 20 give 2, and 0 give 0 |
| Health.Health | backend/internal/handlers/health.go:28-59 | the method that fills the services map and scans it with an early exit sends exactly the reference reply: 200 through `RespondSuccess`, no message, version "1.0.0", the services map, and the aggregate status "unhealthy iff some service is unhealthy" |
| Health.ServicesReportProbe | backend/internal/handlers/health.go:32-43 | the services map has the one key `database`; its value is `not_configured`, `unhealthy` or `healthy` exactly when the handle is missing, the probe failed or the probe succeeded |
| Health.AggregateIgnoresNotConfigured | backend/internal/handlers/health.go:45-51 | the aggregate is `healthy` or `unhealthy`, and adding a `not_configured` service never changes it |
| Health.HealthStatusFollowsProbe | backend/internal/handlers/health.go:32-51 | the aggregate status is `unhealthy` exactly when the probe failed |
| Health.HealthAlwaysOk | backend/internal/handlers/health.go:53-58 | whatever the probe, liveness answers 200 with a success envelope, no message, and the status object with version "1.0.0" |
| Health.Ready | backend/internal/handlers/health.go:61-73 | 503 exactly when a configured database's probe failed, and 200 otherwise; the 503 reply is `NOT_READY` / "Database not ready" without details; the 200 reply carries `{ready: true}` and no message; both carry the key store's request id |
| Health.ReadyAgreesWithHealth | backend/internal/handlers/health.go:28-73 | readiness answers 200 exactly when liveness reports the aggregate `healthy` |
| Middleware.PanicValue | backend/internal/middleware/recovery.go:14 | the value a panic raises is never nil, so the `err != nil` branch is taken for every panic; a non-nil value is raised unchanged |
| Middleware.InternalError | backend/internal/middleware/recovery.go:16 | the recovery reply is 500 with code `INTERNAL_ERROR`, message "An unexpected error occurred", `success` false, no details, and the key store's request id |
| Middleware.NextSpec | backend/internal/middleware/logger.go:22 | `c.Next()` moves the handler index strictly forward, and the numbers of replies, log lines and started handlers never decrease |
| Middleware.LoopSpec | backend/internal/middleware/recovery.go:20 | the loop inside `c.Next()` never moves the index back, and the numbers of replies, log lines and started handlers never decrease |
| Middleware.HandleSpec | backend/internal/middleware/logger.go:22 | running one handler starts at least one more handler, and the numbers of replies and log lines never decrease |
| Middleware.RecoverySpec | backend/internal/middleware/recovery.go:11-22 | Recovery always completes, whatever runs after it, and the numbers of replies and log lines never decrease |
| Middleware.LoggerSpec | backend/internal/middleware/logger.go:11-35 | when Logger completes, the id has at least eight characters and its last log line is the access line for the id's first eight characters, the method, the path and the writer's final status |
| Middleware.RouteSpec | backend/internal/handlers/health.go:53-72 | a route handler keeps the index and the log, writes at most one reply after the existing ones, and writes nothing exactly when it panics |
| Middleware.NextRunsLast | backend/internal/middleware/logger.go:22 | when the next handler is the last to run, `c.Next()` is that handler's run, followed by the end of the loop unless it panicked |
| Middleware.RecoveryContract | backend/internal/middleware/recovery.go:13-20 | Recovery never lets a panic out; when downstream completed, it changes nothing; after a panic, it adds exactly one write (the 500 envelope built from the key store), logs the panic value, aborts, and leaves the key store and the headers the middleware sets alone |
| Middleware.LoggerSetsIdFirst | backend/internal/middleware/logger.go:14-22 | the state Logger hands to `c.Next()` holds the id under `request_id` and in `X-Request-ID` (an empty id deletes the header), with replies, logs, index and trace unchanged; Logger's own run writes no reply beyond those of the chain after it |
| Middleware.AppLoggerRun | backend/internal/middleware/logger.go:12-34 | in the application chain, Logger sets the id, runs the route once, and then either logs the status of the route's reply under the id's first eight characters or panics on a short id; it passes on a route's panic without logging |
| Middleware.AppRecoveryRun | backend/internal/middleware/recovery.go:12-21 | in the application chain, Recovery completes; it leaves the reply and the log alone when nothing panicked, and otherwise appends the 500 reply and the panic log line and aborts |
| Middleware.AppServe | backend/cmd/api/main.go:47-48 | one request through Recovery, Logger and the route, in closed form: it completes; each handler starts once, in order; it gives the key store, the headers, every write and every log line; and it says whether the context ends aborted, for each of the three cases (route replies with a long id, route replies with a short id, route panics) |
| Middleware.HeaderMatchesEnvelope | backend/internal/middleware/logger.go:15-22 | every success or error envelope the client receives carries the id of the `X-Request-ID` header; with an empty id both are absent |
| Middleware.RoutePanicBecomesOne500 | backend/internal/middleware/recovery.go:14-17 | a route that panics yields exactly one reply, the 500 `INTERNAL_ERROR` envelope; the chain completes aborted, and the raised value, never nil, is logged |
| Middleware.PanicValueNotSent | backend/internal/middleware/recovery.go:15-16 | two requests whose routes panic with different values send the same replies and headers |
| Middleware.ZeroLimitBecomes500 | backend/internal/utils/response.go:84-85 | a paginated route with limit 0 divides by zero, and the client receives only the 500 reply |
| Middleware.ExactlyOneReply | backend/internal/middleware/logger.go:22-28 | with an id of at least eight characters every request gets exactly one reply; a route that does not panic is not aborted, and Logger logs the status that reply went out with |
| Middleware.HealthThroughChain | backend/internal/handlers/health.go:53-58 | liveness through the chain sends exactly the liveness reply, with status 200 |
| Middleware.ReadyThroughChain | backend/internal/handlers/health.go:65-72 | readiness through the chain sends exactly one reply, whose status is 503 iff the probe failed |
| Middleware.LoggerPanicCaught | backend/cmd/api/main.go:47-48 | a panic inside Logger (a short id) is caught by the Recovery registered before it; the route's reply stays first and sets the status, and the 500 follows |
| Middleware.RecoveryMustComeFirst | backend/cmd/api/main.go:47-48 | with Logger registered before Recovery, the same Logger panic escapes the chain |
| Middleware.Context.Set | backend/internal/middleware/logger.go:15 | `c.Set` updates the key store and nothing else |
| Middleware.Context.Header | backend/internal/middleware/logger.go:16 | `c.Header` sets the header, or deletes it for an empty value, and changes nothing else |
| Middleware.Context.Status | backend/internal/middleware/logger.go:25 | the writer's status is the first write's status, 200 before any write |
| Middleware.Context.Json | backend/internal/middleware/recovery.go:16 | `c.JSON` appends one reply and changes nothing else |
| Middleware.Context.Abort | backend/internal/middleware/recovery.go:17 | `c.Abort()` sets the index to the abort index and changes nothing else |
| Middleware.Context.Log | backend/internal/middleware/recovery.go:15 | `log.Printf` appends one log entry and changes nothing else |
| Middleware.Context.Handle | backend/internal/middleware/logger.go:22 | running the handler at the current index leaves the context, and returns the outcome, that the handler specification gives |
| Middleware.Context.Next | backend/internal/middleware/logger.go:22 | `c.Next()` runs the handlers after the current one in order until one panics or the index passes the chain; the new context is exactly the specification's |
| Middleware.Context.Logger | backend/internal/middleware/logger.go:11-35 | the in-place Logger leaves the context, and returns the outcome, that the Logger specification gives |
| Middleware.Context.Recovery | backend/internal/middleware/recovery.go:11-22 | the in-place Recovery, with `recover` around `c.Next()`, leaves the context and returns the outcome that the Recovery specification gives |
| Middleware.Context.Route | backend/internal/handlers/health.go:28-73 | a route handler writes the one envelope its builder returns, or panics before writing; `Health` runs as the in-place method |
| Middleware.Serve | backend/cmd/api/main.go:44-49 | a request served on a fresh context ends in the state and outcome that the chain specification gives |
| Config.GetEnv | backend/internal/config/config.go:75-80 | a non-empty value wins; an empty or missing one gives the default |
| Config.Atoi | backend/internal/config/config.go:84 | a parsed value is in the 64-bit range, and the empty string and a bare sign never parse |
| Config.AtoiItoa | backend/internal/config/config.go:84 | every 64-bit integer, printed in decimal and parsed back, is itself |
| Config.AtoiExamples | backend/internal/config/config.go:84 | "168", "-3" and "+7" parse; "", "-", "+", "12h", " 1" and "1_0" do not |
| Config.GetEnvInt | backend/internal/config/config.go:82-89 | an empty or unparsable value gives the default; a value that parses gives the parsed integer |
| Config.EmptyValueIsUnset | backend/internal/config/config.go:75-89 | a variable set to "" reads like an unset one, for both lookups |
| Config.GetEnvIntReadsBack | backend/internal/config/config.go:82-89 | an integer written into the environment in decimal is read back |
| Config.Load | backend/internal/config/config.go:39-73 | Load always yields the record; the port and environment are never empty, the token lifetimes are 64-bit integers, and each field whose default is "" is its variable's raw value |
| Config.LoadDefaults | backend/internal/config/config.go:43-72 | in an empty environment, Load gives port "8080", environment "development", token lifetimes 1 and 168 hours, and "" for every other field |
| Config.LoadFieldsIndependent | backend/internal/config/config.go:43-70 | each string field of the record depends on its own variable only |
| Config.LoadIntFieldsIndependent | backend/internal/config/config.go:55-56 | each integer field depends on its own variable only |
| Config.LoadAgrees | backend/internal/config/config.go:43-70 | two environments that read alike load the same record |
| Config.LoadEmptyIsUnset | backend/internal/config/config.go:43-70 | setting any variable to "" loads the same record as leaving it unset |

## Left out

- CORS middleware: main.go registers it between Logger and the routes, but its source is not part of this model. The modelled chain is Recovery, then Logger, then the route.
- JSON encoding by gin and `encoding/json`: an envelope is the structured value the client decodes, not bytes. An `interface{}` payload is the `Any` datatype.
- The `log.Printf` line format and the latency: a log entry records the tag, method, path and status, or the panic value.
- The clock: each request has one clock reading, `now`. The source reads it again for each envelope and for the liveness `time` field, and formats it as RFC 3339. Both are left out.
- `uuid.New()`: the identifier is a parameter of the logging middleware, and any string is allowed.
- Middleware.LoggerSpec: Go slices `requestID[:8]` by bytes and the model by characters. The two agree for ASCII ids, which include every string `uuid.New().String()` returns. For a non-ASCII id they differ: "éééé" has 4 characters and 8 bytes, so the model panics where Go does not.
- Middleware.PanicValue: the source has no `go.mod`, so the Go version is an assumption. Go 1.21 and later is modelled, where `panic(nil)` raises a `*runtime.PanicNilError` that Recovery logs. Before 1.21, `recover()` returns nil for it, Recovery skips its branch, and no 500 is sent.
- Headers set by gin and net/http: `c.JSON` also sets `Content-Type`. Only the headers the middleware sets are modelled.
- Status validation: gin ignores a status of 0 or less and keeps 200, and net/http panics on a status outside 100-999. The model records each route's status as given.
- The 5-second deadline and `db.Health`: only the probe outcome is modelled. The database package is not part of this model.
- `godotenv.Load()`: this reads a file. The environment map is the one after the file has been applied.
- `Load` error result: the source always returns a nil error, so `Config.Load` returns the record.
- Process lifecycle in main.go (gin mode, database connection, route table, signal handling, `router.Run`): this is I/O and concurrency. Only the middleware order is kept.
- gin's handling of a second `c.JSON` once headers are out: the model records every write in order, and the status stays that of the first.
- HTTP header-name canonicalisation in `c.Header`: the header name is used as written.
- The Supabase notification function and the shared TypeScript types: network calls and type declarations, with no logic to model.
- Config.Atoi: models `strconv.Atoi` in base 10 as its documented grammar, not the library code, and leaves out the error's kind (syntax or range).
- Middleware.Context.Next: gin's loop counts with an `int8` index. The model uses an unbounded index and requires a chain shorter than 63 handlers, which gin itself enforces.
