/**
 * The middleware chain (backend/internal/middleware/logger.go,
 * backend/internal/middleware/recovery.go) and the part of gin's request
 * context it acts on.
 *
 * A request runs a chain of handlers over one `Context`. `c.Next()` advances
 * a shared index and runs the handlers after the current one; `c.Abort()`
 * moves the index past any chain gin accepts. A handler either returns
 * (`Completed`) or panics (`Panicked(v)`); a panic unwinds every `c.Next()`
 * between it and the deferred `recover` that stops it.
 *
 * The methods of `Context` work on its fields in place. Each is proved
 * against a function on `State`, a value copy of those fields, and the
 * lemmas at the end state what the chain of backend/cmd/api/main.go does.
 */
module Middleware {
  import opened Wrappers
  import opened Values
  import Response
  import Health

  /** gin's `abortIndex`: `Abort` sets the index here, and gin refuses a
      chain of this many handlers. */
  const AbortIndex: int := 63

  const RequestIdHeader := "X-Request-ID"

  const StatusInternalServerError := 500
  const InternalErrorCode := "INTERNAL_ERROR"
  const InternalErrorMessage := "An unexpected error occurred"

  /** The runtime errors the modelled code can raise. */
  const SliceBoundsPanic: Any := Str("runtime error: slice bounds out of range")
  const DivideByZeroPanic: Any := Str("runtime error: integer divide by zero")

  /** What `panic(nil)` raises from Go 1.21 on: a `*runtime.PanicNilError`. */
  const PanicNilError: Any := Str("panic called with nil argument")

  /** The value a `panic(v)` raises: `panic(nil)` is replaced, so a
      deferred `recover()` never returns nil. */
  function PanicValue(v: Any): (raised: Any)
    ensures raised != Nil
    ensures v != Nil ==> raised == v
  {
    if v == Nil then PanicNilError else v
  }

  datatype Outcome = Completed | Panicked(value: Any)

  /** Route handlers: the two health handlers, and handlers that reply
      through one envelope builder or panic before replying. */
  datatype Route =
    | HealthRoute(db: Health.Probe)
    | ReadyRoute(db: Health.Probe)
    | RespondOk(status: int, data: Any, message: string)
    | RespondFail(status: int, code: string, message: string, details: Any)
    | RespondPage(status: int, data: Any, page: int, limit: int, total: int)
    | Fail(value: Any)

  /** A chain entry. The logging middleware carries the identifier that
      `uuid.New().String()` yields for this request. */
  datatype Handler = RecoveryMw | LoggerMw(requestId: string) | RouteH(route: Route)

  /** What reaches the server log. */
  datatype LogEntry =
    | Access(tag: string, verb: string, path: string, status: int)
    | PanicLog(value: Any)

  /** The fixed part of a request: its handler chain, the clock reading, the HTTP method (`verb`) and path. */
  datatype Request = Request(handlers: seq<Handler>, now: string, verb: string, path: string)

  /**
   * The changing part of a request's context. `writes` lists every
   * `c.JSON` call in order; `trace` lists the indices of the handlers that
   * were started, in order.
   */
  datatype State = State(
    keys: map<string, Any>,
    headers: map<string, string>,
    writes: seq<Response.Reply>,
    logs: seq<LogEntry>,
    index: int,
    trace: seq<int>)
  {
    /** `c.Set(key, value)`. */
    function Set(key: string, value: Any): State {
      this.(keys := keys[key := value])
    }

    /** `c.Header(key, value)`: an empty value deletes the header. */
    function Header(key: string, value: string): State {
      if value == "" then this.(headers := headers - {key}) else this.(headers := headers[key := value])
    }

    /** `c.JSON(status, body)`. */
    function Json(r: Response.Reply): State {
      this.(writes := writes + [r])
    }

    /** `c.Abort()`. */
    function Abort(): State {
      this.(index := AbortIndex)
    }

    function Log(e: LogEntry): State {
      this.(logs := logs + [e])
    }

    /** `c.Writer.Status()`: the status of the first write, 200 before any.
        A later write cannot change a status that has gone out. */
    function Status(): int {
      if writes == [] then 200 else writes[0].status
    }

    /** `c.IsAborted()`. */
    predicate IsAborted() {
      index >= AbortIndex
    }
  }

  /** The context gin hands to the first handler. */
  const Initial := State(map[], map[], [], [], -1, [])

  datatype Run = Run(state: State, outcome: Outcome)

  /** What a route handler does: the one reply it writes, or the panic it
      raises before writing. */
  datatype Effect = Writes(reply: Response.Reply) | Raises(value: Any)

  function RouteEffect(r: Route, keys: map<string, Any>, now: string): Effect {
    match r
    case HealthRoute(db) => Writes(Health.HealthReply(db, keys, now))
    case ReadyRoute(db) => Writes(Health.Ready(db, keys, now))
    case RespondOk(status, data, message) => Writes(Response.RespondSuccess(keys, now, status, data, message))
    case RespondFail(status, code, message, details) =>
      Writes(Response.RespondError(keys, now, status, code, message, details))
    case RespondPage(status, data, page, limit, total) =>
      if limit == 0 then Raises(DivideByZeroPanic)
      else Writes(Response.RespondPaginated(status, data, page, limit, total))
    case Fail(v) => Raises(PanicValue(v))
  }

  /** The 500 reply of the recovery middleware, built from the key store it finds. */
  function InternalError(keys: map<string, Any>, now: string): (r: Response.Reply)
    ensures r.status == StatusInternalServerError
    ensures r.body.Failure? && !r.body.err.success
    ensures r.body.err.error.code == InternalErrorCode
    ensures r.body.err.error.message == InternalErrorMessage
    ensures r.body.err.error.details == None
    ensures Response.EnvelopeRequestId(r.body) == Response.OmitEmpty(Response.RequestIdString(keys))
  {
    Response.RespondError(keys, now, StatusInternalServerError, InternalErrorCode, InternalErrorMessage, Nil)
  }

  // ---------------------------------------------------------------------
  // The chain as functions on State.
  // ---------------------------------------------------------------------

  ghost predicate Accepted(rq: Request) {
    |rq.handlers| < AbortIndex
  }

  /** `t` has at least as many replies, log lines and started handlers as `s`. */
  ghost predicate Grows(s: State, t: State) {
    |s.writes| <= |t.writes| && |s.logs| <= |t.logs| && |s.trace| <= |t.trace|
  }

  function Measure(rq: Request, i: int): nat {
    if i <= |rq.handlers| then |rq.handlers| - i + 1 else 0
  }

  /** `c.Next()`. */
  ghost function NextSpec(rq: Request, s: State): (res: Run)
    requires Accepted(rq) && -1 <= s.index < |rq.handlers|
    ensures res.state.index > s.index
    ensures Grows(s, res.state)
    decreases Measure(rq, s.index), 0
  {
    LoopSpec(rq, s.(index := s.index + 1))
  }

  /** The loop in `c.Next()`, from the handler at `s.index` on. */
  ghost function LoopSpec(rq: Request, s: State): (res: Run)
    requires Accepted(rq) && 0 <= s.index
    ensures res.state.index >= s.index
    ensures Grows(s, res.state)
    decreases Measure(rq, s.index), 3
  {
    if s.index >= |rq.handlers| then Run(s, Completed)
    else
      var res := HandleSpec(rq, s);
      if res.outcome.Panicked? then res else LoopSpec(rq, res.state.(index := res.state.index + 1))
  }

  /** Runs the handler at `s.index`. */
  ghost function HandleSpec(rq: Request, s: State): (res: Run)
    requires Accepted(rq) && 0 <= s.index < |rq.handlers|
    ensures res.state.index >= s.index
    ensures Grows(s, res.state) && |res.state.trace| > |s.trace|
    decreases Measure(rq, s.index), 2
  {
    var started := s.(trace := s.trace + [s.index]);
    match rq.handlers[s.index]
    case RecoveryMw => RecoverySpec(rq, started)
    case LoggerMw(id) => LoggerSpec(rq, started, id)
    case RouteH(r) => RouteSpec(rq, started, r)
  }

  /** `Recovery()`: run the rest of the chain; on a panic, log its value,
      reply 500 `INTERNAL_ERROR` and abort. */
  ghost function RecoverySpec(rq: Request, s: State): (res: Run)
    requires Accepted(rq) && 0 <= s.index < |rq.handlers|
    ensures res.state.index >= s.index
    ensures Grows(s, res.state)
    ensures res.outcome == Completed
    decreases Measure(rq, s.index), 1
  {
    var down := NextSpec(rq, s);
    match down.outcome
    case Completed => down
    case Panicked(v) =>
      var after := down.state.Log(PanicLog(v));
      Run(after.Json(InternalError(after.keys, rq.now)).Abort(), Completed)
  }

  /** `Logger()`: store the id and send it as a header, run the rest of the
      chain, then log the status under the id's first eight characters. */
  ghost function LoggerSpec(rq: Request, s: State, id: string): (res: Run)
    requires Accepted(rq) && 0 <= s.index < |rq.handlers|
    ensures res.state.index >= s.index
    ensures Grows(s, res.state)
    ensures res.outcome == Completed ==>
      && |id| >= 8 && |res.state.logs| > |s.logs|
      && res.state.logs[|res.state.logs| - 1] == Access(id[..8], rq.verb, rq.path, res.state.Status())
    decreases Measure(rq, s.index), 1
  {
    var down := NextSpec(rq, WithRequestId(s, id));
    if down.outcome.Panicked? then down
    else if |id| < 8 then Run(down.state, Panicked(SliceBoundsPanic))
    else Run(down.state.Log(Access(id[..8], rq.verb, rq.path, down.state.Status())), Completed)
  }

  /** The state Logger hands to the rest of the chain: the id under
      `request_id` and in the `X-Request-ID` header. */
  function WithRequestId(s: State, id: string): State {
    s.Set(Response.RequestIdKey, Str(id)).Header(RequestIdHeader, id)
  }

  /** A route handler. */
  ghost function RouteSpec(rq: Request, s: State, r: Route): (res: Run)
    ensures res.state.index == s.index
    ensures s.writes <= res.state.writes && res.state.logs == s.logs && |res.state.writes| <= |s.writes| + 1
    ensures res.outcome.Panicked? <==> res.state.writes == s.writes
  {
    match RouteEffect(r, s.keys, rq.now)
    case Writes(reply) => Run(s.Json(reply), Completed)
    case Raises(v) => Run(s, Panicked(v))
  }

  /** A request, served from gin's initial context. */
  ghost function ServeSpec(rq: Request): Run
    requires Accepted(rq)
  {
    NextSpec(rq, Initial)
  }

  // ---------------------------------------------------------------------
  // The two middlewares on any chain.
  // ---------------------------------------------------------------------

  /** Recovery never lets a panic out. When nothing downstream panicked it
      changes nothing; when something did, it adds exactly one write, the 500
      `INTERNAL_ERROR` envelope without details, logs the panic value, and
      aborts. */
  lemma RecoveryContract(rq: Request, s: State)
    requires Accepted(rq) && 0 <= s.index < |rq.handlers|
    ensures RecoverySpec(rq, s).outcome == Completed
    ensures NextSpec(rq, s).outcome == Completed ==> RecoverySpec(rq, s) == NextSpec(rq, s)
    ensures NextSpec(rq, s).outcome.Panicked? ==>
      var down := NextSpec(rq, s).state;
      var after := RecoverySpec(rq, s).state;
      && after.writes == down.writes + [InternalError(down.keys, rq.now)]
      && after.logs == down.logs + [PanicLog(NextSpec(rq, s).outcome.value)]
      && after.IsAborted()
      && after.keys == down.keys && after.headers == down.headers
  {
  }

  /** Logger stores the id and sets the header before the rest of the chain
      runs, so the handlers after it see both, and nothing else changes; it
      writes no reply of its own. */
  lemma LoggerSetsIdFirst(rq: Request, s: State, id: string)
    requires Accepted(rq) && 0 <= s.index < |rq.handlers|
    ensures var t := WithRequestId(s, id);
      && t.keys == s.keys[Response.RequestIdKey := Str(id)]
      && Response.RequestIdString(t.keys) == id
      && (id != "" ==> t.headers == s.headers[RequestIdHeader := id])
      && (id == "" ==> t.headers == s.headers - {RequestIdHeader})
      && t.writes == s.writes && t.logs == s.logs && t.index == s.index && t.trace == s.trace
    ensures LoggerSpec(rq, s, id).state.writes == NextSpec(rq, WithRequestId(s, id)).state.writes
  {
  }

  // ---------------------------------------------------------------------
  // The chain of backend/cmd/api/main.go: Recovery, then Logger, then the
  // route (the CORS middleware between them is not part of this model).
  // ---------------------------------------------------------------------

  function AppChain(id: string, r: Route): seq<Handler> {
    [RecoveryMw, LoggerMw(id), RouteH(r)]
  }

  /** The key store the route sees: the one key Logger set. */
  function IdKeys(id: string): map<string, Any> {
    map[Response.RequestIdKey := Str(id)]
  }

  /** The headers the middleware sets on the reply. */
  function IdHeaders(id: string): map<string, string> {
    if id == "" then map[] else map[RequestIdHeader := id]
  }

  ghost function AppRun(id: string, r: Route, now: string, verb: string, path: string): Run {
    ServeSpec(Request(AppChain(id, r), now, verb, path))
  }

  /** `c.Next()` when the next handler is the last one to run: its run,
      then the loop stops (or the panic goes up). */
  lemma NextRunsLast(rq: Request, s: State)
    requires Accepted(rq) && -1 <= s.index && s.index + 1 < |rq.handlers|
    requires HandleSpec(rq, s.(index := s.index + 1)).state.index + 1 >= |rq.handlers|
    ensures var h := HandleSpec(rq, s.(index := s.index + 1));
      NextSpec(rq, s) == if h.outcome.Panicked? then h else Run(h.state.(index := h.state.index + 1), Completed)
  {
    assert NextSpec(rq, s) == LoopSpec(rq, s.(index := s.index + 1));
  }

  /** The context Logger starts from in the chain: Recovery has started and called `c.Next()`. */
  const LoggerStart := Initial.(index := 1).(trace := [0, 1])

  /** Logger and the route, unfolded. */
  lemma {:induction false} AppLoggerRun(id: string, r: Route, now: string, verb: string, path: string)
    ensures var lg := LoggerSpec(Request(AppChain(id, r), now, verb, path), LoggerStart, id);
      && lg.state.keys == IdKeys(id)
      && lg.state.headers == IdHeaders(id)
      && lg.state.trace == [0, 1, 2]
      && 2 <= lg.state.index <= 3
      && (RouteEffect(r, IdKeys(id), now).Writes? ==>
            && lg.state.writes == [RouteEffect(r, IdKeys(id), now).reply]
            && lg.state.logs == (if |id| >= 8 then [Access(id[..8], verb, path, lg.state.writes[0].status)] else [])
            && lg.outcome == (if |id| >= 8 then Completed else Panicked(SliceBoundsPanic)))
      && (RouteEffect(r, IdKeys(id), now).Raises? ==>
            && lg.state.writes == [] && lg.state.logs == []
            && lg.outcome == Panicked(RouteEffect(r, IdKeys(id), now).value))
  {
    var rq := Request(AppChain(id, r), now, verb, path);
    var s3 := WithRequestId(LoggerStart, id);
    var s4 := s3.(index := 2).(trace := [0, 1, 2]);
    assert [0, 1] + [2] == [0, 1, 2];
    assert s4.keys == IdKeys(id) && s4.headers == IdHeaders(id);
    var route := RouteSpec(rq, s4, r);
    assert HandleSpec(rq, s3.(index := 2)) == route;
    NextRunsLast(rq, s3);
    var down := NextSpec(rq, s3);
    assert s3 == WithRequestId(LoggerStart, id);
    assert LoggerSpec(rq, LoggerStart, id) ==
      if down.outcome.Panicked? then down
      else if |id| < 8 then Run(down.state, Panicked(SliceBoundsPanic))
      else Run(down.state.Log(Access(id[..8], verb, path, down.state.Status())), Completed);
  }

  /** The context Recovery starts from in the chain. */
  const RecoveryStart := Initial.(index := 0).(trace := [0])

  /** Recovery around Logger and the route, unfolded. */
  lemma {:induction false} AppRecoveryRun(id: string, r: Route, now: string, verb: string, path: string)
    ensures var rc := RecoverySpec(Request(AppChain(id, r), now, verb, path), RecoveryStart);
      && rc.outcome == Completed
      && rc.state.keys == IdKeys(id)
      && rc.state.headers == IdHeaders(id)
      && rc.state.trace == [0, 1, 2]
      && (3 <= rc.state.index <= 4 || rc.state.index == AbortIndex)
      && (RouteEffect(r, IdKeys(id), now).Writes? && |id| >= 8 ==>
            && rc.state.writes == [RouteEffect(r, IdKeys(id), now).reply]
            && rc.state.logs == [Access(id[..8], verb, path, RouteEffect(r, IdKeys(id), now).reply.status)]
            && rc.state.index <= 4)
      && (RouteEffect(r, IdKeys(id), now).Writes? && |id| < 8 ==>
            && rc.state.writes == [RouteEffect(r, IdKeys(id), now).reply, InternalError(IdKeys(id), now)]
            && rc.state.logs == [PanicLog(SliceBoundsPanic)]
            && rc.state.index == AbortIndex)
      && (RouteEffect(r, IdKeys(id), now).Raises? ==>
            && rc.state.writes == [InternalError(IdKeys(id), now)]
            && rc.state.logs == [PanicLog(RouteEffect(r, IdKeys(id), now).value)]
            && rc.state.index == AbortIndex)
  {
    var rq := Request(AppChain(id, r), now, verb, path);
    assert [0] + [1] == [0, 1];
    AppLoggerRun(id, r, now, verb, path);
    var logger := LoggerSpec(rq, LoggerStart, id);
    assert HandleSpec(rq, RecoveryStart.(index := 1)) == logger;
    NextRunsLast(rq, RecoveryStart);
  }

  /** One request through the chain, unfolded: what each case leaves behind. */
  lemma {:induction false} AppServe(id: string, r: Route, now: string, verb: string, path: string)
    ensures AppRun(id, r, now, verb, path).outcome == Completed
    ensures AppRun(id, r, now, verb, path).state.trace == [0, 1, 2]
    ensures AppRun(id, r, now, verb, path).state.keys == IdKeys(id)
    ensures AppRun(id, r, now, verb, path).state.headers == IdHeaders(id)
    ensures RouteEffect(r, IdKeys(id), now).Writes? && |id| >= 8 ==>
      && AppRun(id, r, now, verb, path).state.writes == [RouteEffect(r, IdKeys(id), now).reply]
      && AppRun(id, r, now, verb, path).state.logs
         == [Access(id[..8], verb, path, RouteEffect(r, IdKeys(id), now).reply.status)]
      && !AppRun(id, r, now, verb, path).state.IsAborted()
    ensures RouteEffect(r, IdKeys(id), now).Writes? && |id| < 8 ==>
      && AppRun(id, r, now, verb, path).state.writes
         == [RouteEffect(r, IdKeys(id), now).reply, InternalError(IdKeys(id), now)]
      && AppRun(id, r, now, verb, path).state.logs == [PanicLog(SliceBoundsPanic)]
      && AppRun(id, r, now, verb, path).state.IsAborted()
    ensures RouteEffect(r, IdKeys(id), now).Raises? ==>
      && AppRun(id, r, now, verb, path).state.writes == [InternalError(IdKeys(id), now)]
      && AppRun(id, r, now, verb, path).state.logs == [PanicLog(RouteEffect(r, IdKeys(id), now).value)]
      && AppRun(id, r, now, verb, path).state.IsAborted()
  {
    var rq := Request(AppChain(id, r), now, verb, path);
    assert [] + [0] == [0];
    AppRecoveryRun(id, r, now, verb, path);
    var recovery := RecoverySpec(rq, RecoveryStart);
    assert HandleSpec(rq, Initial.(index := 0)) == recovery;
    NextRunsLast(rq, Initial);
  }

  /** The id the client finds in the `X-Request-ID` header is the id in every
      success or error envelope it receives: both present and equal, or, for
      an empty id, both left out. */
  lemma HeaderMatchesEnvelope(id: string, r: Route, now: string, verb: string, path: string, k: nat)
    requires k < |AppRun(id, r, now, verb, path).state.writes|
    requires !AppRun(id, r, now, verb, path).state.writes[k].body.Paginated?
    ensures var st := AppRun(id, r, now, verb, path).state;
      Response.EnvelopeRequestId(st.writes[k].body)
      == (if RequestIdHeader in st.headers then Some(st.headers[RequestIdHeader]) else None)
  {
    AppServe(id, r, now, verb, path);
    var keys := IdKeys(id);
    assert Response.OmitEmpty(Response.RequestIdString(keys)) == if id == "" then None else Some(id);
    var st := AppRun(id, r, now, verb, path).state;
    var w := st.writes[k];
    if w != InternalError(keys, now) {
      assert RouteEffect(r, keys, now).Writes? && w == RouteEffect(r, keys, now).reply;
      match r
      case HealthRoute(db) =>
      case ReadyRoute(db) =>
      case RespondOk(_, _, _) =>
      case RespondFail(_, _, _, _) =>
      case RespondPage(_, _, _, _, _) =>
      case Fail(_) =>
    }
  }

  /** A route that panics yields exactly one reply, the 500
      `INTERNAL_ERROR` envelope carrying the request's id; the chain ends
      aborted and the panic value is logged. */
  lemma RoutePanicBecomesOne500(id: string, v: Any, now: string, verb: string, path: string)
    ensures AppRun(id, Fail(v), now, verb, path).outcome == Completed
    ensures AppRun(id, Fail(v), now, verb, path).state.writes == [InternalError(IdKeys(id), now)]
    ensures AppRun(id, Fail(v), now, verb, path).state.writes[0].status == StatusInternalServerError
    ensures AppRun(id, Fail(v), now, verb, path).state.writes[0].body.err.error.code == InternalErrorCode
    ensures AppRun(id, Fail(v), now, verb, path).state.IsAborted()
    ensures AppRun(id, Fail(v), now, verb, path).state.logs == [PanicLog(PanicValue(v))]
    ensures AppRun(id, Fail(v), now, verb, path).state.logs[0].value != Nil
  {
    AppServe(id, Fail(v), now, verb, path);
  }

  /** The panic value reaches the log only: two requests that differ only in
      the value their route panics with send the same replies. */
  lemma PanicValueNotSent(id: string, v1: Any, v2: Any, now: string, verb: string, path: string)
    ensures AppRun(id, Fail(v1), now, verb, path).state.writes == AppRun(id, Fail(v2), now, verb, path).state.writes
    ensures AppRun(id, Fail(v1), now, verb, path).state.headers == AppRun(id, Fail(v2), now, verb, path).state.headers
  {
    AppServe(id, Fail(v1), now, verb, path);
    AppServe(id, Fail(v2), now, verb, path);
  }

  /** A paginated route with `limit == 0` divides by zero; Recovery turns that into the 500 reply. */
  lemma ZeroLimitBecomes500(id: string, status: int, data: Any, page: int, total: int, now: string, verb: string, path: string)
    ensures AppRun(id, RespondPage(status, data, page, 0, total), now, verb, path).state.writes
      == [InternalError(IdKeys(id), now)]
  {
    AppServe(id, RespondPage(status, data, page, 0, total), now, verb, path);
  }

  /** With an id of at least eight characters (a canonical UUID has 36), every
      request gets exactly one reply; a route that does not panic is left
      alone by Recovery, and Logger logs the status that reply went out with,
      tagged with the id's first eight characters. */
  lemma ExactlyOneReply(id: string, r: Route, now: string, verb: string, path: string)
    requires |id| >= 8
    ensures |AppRun(id, r, now, verb, path).state.writes| == 1
    ensures RouteEffect(r, IdKeys(id), now).Writes? ==>
      && !AppRun(id, r, now, verb, path).state.IsAborted()
      && AppRun(id, r, now, verb, path).state.logs
         == [Access(id[..8], verb, path, AppRun(id, r, now, verb, path).state.Status())]
  {
    AppServe(id, r, now, verb, path);
  }

  /** Liveness through the chain: one 200 reply, whatever the probe. */
  lemma HealthThroughChain(id: string, db: Health.Probe, now: string, verb: string, path: string)
    requires |id| >= 8
    ensures AppRun(id, HealthRoute(db), now, verb, path).state.writes == [Health.HealthReply(db, IdKeys(id), now)]
    ensures AppRun(id, HealthRoute(db), now, verb, path).state.Status() == 200
  {
    AppServe(id, HealthRoute(db), now, verb, path);
    Health.HealthAlwaysOk(db, IdKeys(id), now);
  }

  /** Readiness through the chain: one reply, 503 exactly when the probe failed. */
  lemma ReadyThroughChain(id: string, db: Health.Probe, now: string, verb: string, path: string)
    requires |id| >= 8
    ensures AppRun(id, ReadyRoute(db), now, verb, path).state.writes == [Health.Ready(db, IdKeys(id), now)]
    ensures AppRun(id, ReadyRoute(db), now, verb, path).state.Status() == 503 <==> db == Health.ProbeFailed
  {
    AppServe(id, ReadyRoute(db), now, verb, path);
  }

  /** A panic in Logger itself (an id shorter than eight characters makes
      `requestID[:8]` panic) is caught too, because Recovery runs first; the
      route's reply has already gone out, so a second write follows it. */
  lemma LoggerPanicCaught(id: string, r: Route, now: string, verb: string, path: string)
    requires |id| < 8
    requires RouteEffect(r, IdKeys(id), now).Writes?
    ensures AppRun(id, r, now, verb, path).outcome == Completed
    ensures AppRun(id, r, now, verb, path).state.writes
      == [RouteEffect(r, IdKeys(id), now).reply, InternalError(IdKeys(id), now)]
    ensures AppRun(id, r, now, verb, path).state.Status() == RouteEffect(r, IdKeys(id), now).reply.status
  {
    AppServe(id, r, now, verb, path);
  }

  /** The order is load-bearing: with Logger registered before Recovery, the
      same Logger panic escapes the chain. */
  lemma RecoveryMustComeFirst(now: string, verb: string, path: string)
    ensures ServeSpec(Request([LoggerMw("short"), RecoveryMw, RouteH(RespondOk(200, Nil, ""))], now, verb, path)).outcome
      == Panicked(SliceBoundsPanic)
  {
    var rq := Request([LoggerMw("short"), RecoveryMw, RouteH(RespondOk(200, Nil, ""))], now, verb, path);
    var s0 := Initial.(index := 0).(trace := [0]);
    var s1 := WithRequestId(s0, "short");
    assert [] + [0] == [0] && [0] + [1] == [0, 1] && [0, 1] + [2] == [0, 1, 2];
    var down := NextSpec(rq, s1);
    var s2 := s1.(index := 1);
    var recovery := RecoverySpec(rq, s2.(trace := [0, 1]));
    RecoveryContract(rq, s2.(trace := [0, 1]));
    assert HandleSpec(rq, s2) == recovery;
    assert down == LoopSpec(rq, s2);
    assert down == LoopSpec(rq, recovery.state.(index := recovery.state.index + 1));
    assert down.outcome == Completed;
    assert LoggerSpec(rq, s0, "short").outcome == Panicked(SliceBoundsPanic);
    assert HandleSpec(rq, Initial.(index := 0)) == LoggerSpec(rq, s0, "short");
    assert ServeSpec(rq) == LoopSpec(rq, Initial.(index := 0));
  }

  // ---------------------------------------------------------------------
  // The context object.
  // ---------------------------------------------------------------------

  class Context {
    const request: Request
    var keys: map<string, Any>
    var headers: map<string, string>
    var writes: seq<Response.Reply>
    var logs: seq<LogEntry>
    var index: int
    ghost var trace: seq<int>

    ghost function Snapshot(): State
      reads this
    {
      State(keys, headers, writes, logs, index, trace)
    }

    ghost predicate Valid()
      reads this
    {
      Accepted(request) && index >= -1
    }

    constructor (handlers: seq<Handler>, now: string, verb: string, path: string)
      requires |handlers| < AbortIndex
      ensures Valid()
      ensures request == Request(handlers, now, verb, path)
      ensures Snapshot() == Initial
    {
      request := Request(handlers, now, verb, path);
      keys, headers, writes, logs, index := map[], map[], [], [], -1;
      trace := [];
    }

    method Set(key: string, value: Any)
      modifies this
      ensures Snapshot() == old(Snapshot()).Set(key, value)
    {
      keys := keys[key := value];
    }

    method Header(key: string, value: string)
      modifies this
      ensures Snapshot() == old(Snapshot()).Header(key, value)
    {
      if value == "" {
        headers := headers - {key};
      } else {
        headers := headers[key := value];
      }
    }

    method Json(r: Response.Reply)
      modifies this
      ensures Snapshot() == old(Snapshot()).Json(r)
    {
      writes := writes + [r];
    }

    method Abort()
      modifies this
      ensures Snapshot() == old(Snapshot()).Abort()
    {
      index := AbortIndex;
    }

    method Log(e: LogEntry)
      modifies this
      ensures Snapshot() == old(Snapshot()).Log(e)
    {
      logs := logs + [e];
    }

    method Status() returns (status: int)
      ensures status == Snapshot().Status()
    {
      status := if writes == [] then 200 else writes[0].status;
    }

    /** `c.Next()`. */
    method Next() returns (o: Outcome)
      requires Valid() && index < |request.handlers|
      modifies this
      ensures Valid()
      ensures Run(Snapshot(), o) == NextSpec(request, old(Snapshot()))
      decreases Measure(request, index), 0
    {
      index := index + 1;
      while index < |request.handlers|
        invariant Valid() && index > old(index)
        invariant LoopSpec(request, Snapshot()) == NextSpec(request, old(Snapshot()))
        decreases |request.handlers| - index
      {
        o := Handle();
        if o.Panicked? {
          return;
        }
        index := index + 1;
      }
      o := Completed;
    }

    /** Runs the handler at the current index. */
    method Handle() returns (o: Outcome)
      requires Valid() && 0 <= index < |request.handlers|
      modifies this
      ensures Valid()
      ensures Run(Snapshot(), o) == HandleSpec(request, old(Snapshot()))
      decreases Measure(request, index), 2
    {
      trace := trace + [index];
      match request.handlers[index]
      case RecoveryMw => o := Recovery();
      case LoggerMw(id) => o := Logger(id);
      case RouteH(r) => o := Route(r);
    }

    /** `Recovery()`: the deferred `recover` around `c.Next()`. */
    method Recovery() returns (o: Outcome)
      requires Valid() && 0 <= index < |request.handlers|
      modifies this
      ensures Valid()
      ensures Run(Snapshot(), o) == RecoverySpec(request, old(Snapshot()))
      decreases Measure(request, index), 1
    {
      var down := Next();
      if down.Panicked? {
        Log(PanicLog(down.value));
        Json(InternalError(keys, request.now));
        Abort();
      }
      o := Completed;
    }

    /** `Logger()`, for the identifier generated for this request. */
    method Logger(id: string) returns (o: Outcome)
      requires Valid() && 0 <= index < |request.handlers|
      modifies this
      ensures Valid()
      ensures Run(Snapshot(), o) == LoggerSpec(request, old(Snapshot()), id)
      decreases Measure(request, index), 1
    {
      Set(Response.RequestIdKey, Str(id));
      Header(RequestIdHeader, id);
      var down := Next();
      if down.Panicked? {
        return down;
      }
      var status := Status();
      if |id| < 8 {
        return Panicked(SliceBoundsPanic);
      }
      Log(Access(id[..8], request.verb, request.path, status));
      o := Completed;
    }

    /** A route handler, replying through the envelope. */
    method Route(r: Route) returns (o: Outcome)
      requires Valid()
      modifies this
      ensures Valid()
      ensures Run(Snapshot(), o) == RouteSpec(request, old(Snapshot()), r)
    {
      match r
      case HealthRoute(db) =>
        var reply := Health.Health(db, keys, request.now);
        Json(reply);
        o := Completed;
      case ReadyRoute(db) =>
        Json(Health.Ready(db, keys, request.now));
        o := Completed;
      case RespondOk(status, data, message) =>
        Json(Response.RespondSuccess(keys, request.now, status, data, message));
        o := Completed;
      case RespondFail(status, code, message, details) =>
        Json(Response.RespondError(keys, request.now, status, code, message, details));
        o := Completed;
      case RespondPage(status, data, page, limit, total) =>
        if limit == 0 {
          o := Panicked(DivideByZeroPanic);
        } else {
          Json(Response.RespondPaginated(status, data, page, limit, total));
          o := Completed;
        }
      case Fail(v) =>
        o := Panicked(PanicValue(v));
    }
  }

  /** Serves one request: a fresh context, then `c.Next()`. */
  method Serve(handlers: seq<Handler>, now: string, verb: string, path: string) returns (c: Context, o: Outcome)
    requires |handlers| < AbortIndex
    ensures fresh(c) && c.request == Request(handlers, now, verb, path)
    ensures Run(c.Snapshot(), o) == ServeSpec(c.request)
  {
    c := new Context(handlers, now, verb, path);
    o := c.Next();
  }
}
