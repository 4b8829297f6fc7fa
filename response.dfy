/**
 * The response envelope (backend/internal/utils/response.go).
 *
 * Every reply a handler sends goes through one of three builders. Each is a
 * function from its arguments, the request's key store and the clock reading
 * to the status code and the JSON object the client receives. A field tagged
 * `omitempty` is an `Option`: `None` is "not emitted". The `meta` and
 * `metadata` pointers are `Option`s too, so that "always present" is a
 * statement and not a fact of the type.
 */
module Response {
  import opened Wrappers
  import opened Values

  /** `Meta`: the request id is `omitempty`. */
  datatype Meta = Meta(timestamp: string, requestId: Option<string>)

  /** `ErrorMeta`: the same shape as `Meta`, a distinct type in the source. */
  datatype ErrorMeta = ErrorMeta(timestamp: string, requestId: Option<string>)

  datatype SuccessResponse = SuccessResponse(
    success: bool,
    data: Option<Any>,
    message: Option<string>,
    meta: Option<Meta>)

  datatype ErrorDetail = ErrorDetail(
    code: string,
    message: string,
    details: Option<Any>,
    metadata: Option<ErrorMeta>)

  datatype ErrorResponse = ErrorResponse(success: bool, error: ErrorDetail)

  datatype Pagination = Pagination(page: int, limit: int, total: int, totalPages: int)

  /** `data` has no `omitempty`: a nil slice is still emitted (as `null`). */
  datatype PaginatedResponse = PaginatedResponse(success: bool, data: Any, pagination: Pagination)

  datatype Envelope =
    | Success(ok: SuccessResponse)
    | Failure(err: ErrorResponse)
    | Paginated(paged: PaginatedResponse)

  /** What one `c.JSON(status, body)` call sends. */
  datatype Reply = Reply(status: int, body: Envelope)

  /** The key under which the logging middleware stores the correlation id. */
  const RequestIdKey := "request_id"

  /**
   * `c.Get("request_id")` followed by the unchecked `.(string)` assertion:
   * the stored string, or "" when the key is missing or holds another type.
   */
  function RequestIdString(keys: map<string, Any>): string {
    if RequestIdKey in keys && keys[RequestIdKey].Str? then keys[RequestIdKey].s else ""
  }

  /** `omitempty` on a string field. */
  function OmitEmpty(s: string): Option<string> {
    if s == "" then None else Some(s)
  }

  /** `omitempty` on an `interface{}` field: only a nil interface is left out. */
  function OmitNil(v: Any): Option<Any> {
    if v == Nil then None else Some(v)
  }

  /**
   * The request id an envelope carries, as a client reads it, agrees with the
   * key store: it is present exactly when the store holds a non-empty string
   * under `request_id`, and it is that string.
   */
  ghost predicate IdFromKeys(id: Option<string>, keys: map<string, Any>) {
    && (id.Some? <==> RequestIdKey in keys && keys[RequestIdKey].Str? && keys[RequestIdKey].s != "")
    && (id.Some? ==> keys[RequestIdKey] == Str(id.value))
  }

  /** `RespondSuccess(c, statusCode, data, message)`. */
  function RespondSuccess(keys: map<string, Any>, now: string, status: int, data: Any, message: string): (r: Reply)
    ensures r.status == status
    ensures r.body.Success? && r.body.ok.success
    ensures r.body.ok.data.None? <==> data == Nil
    ensures r.body.ok.data.Some? ==> r.body.ok.data.value == data
    ensures r.body.ok.message.None? <==> message == ""
    ensures r.body.ok.message.Some? ==> r.body.ok.message.value == message
    ensures r.body.ok.meta.Some? && r.body.ok.meta.value.timestamp == now
    ensures IdFromKeys(r.body.ok.meta.value.requestId, keys)
  {
    Reply(status, Success(SuccessResponse(
      true,
      OmitNil(data),
      OmitEmpty(message),
      Some(Meta(now, OmitEmpty(RequestIdString(keys)))))))
  }

  /** `RespondError(c, statusCode, code, message, details)`. */
  function RespondError(keys: map<string, Any>, now: string, status: int, code: string, message: string, details: Any): (r: Reply)
    ensures r.status == status
    ensures r.body.Failure? && !r.body.err.success
    ensures r.body.err.error.code == code && r.body.err.error.message == message
    ensures r.body.err.error.details.None? <==> details == Nil
    ensures r.body.err.error.details.Some? ==> r.body.err.error.details.value == details
    ensures r.body.err.error.metadata.Some? && r.body.err.error.metadata.value.timestamp == now
    ensures IdFromKeys(r.body.err.error.metadata.value.requestId, keys)
  {
    Reply(status, Failure(ErrorResponse(
      false,
      ErrorDetail(code, message, OmitNil(details), Some(ErrorMeta(now, OmitEmpty(RequestIdString(keys))))))))
  }

  /** The request id of a success or error envelope; a paginated one has none. */
  function EnvelopeRequestId(e: Envelope): Option<string> {
    match e
    case Success(ok) => if ok.meta.Some? then ok.meta.value.requestId else None
    case Failure(err) => if err.error.metadata.Some? then err.error.metadata.value.requestId else None
    case Paginated(_) => None
  }

  // ---------------------------------------------------------------------
  // Go integer division. Go's `/` truncates toward zero and `%` takes the
  // sign of the dividend; Dafny's are Euclidean. `int` is 64 bits wide, and
  // the one quotient that does not fit, MinInt64 / -1, wraps to MinInt64
  // (with remainder 0) instead of panicking.
  // ---------------------------------------------------------------------

  const MinInt64: int := -0x8000_0000_0000_0000

  function Abs(x: int): nat {
    if x < 0 then -x else x
  }

  /** Go's `a / b`. */
  function GoQuo(a: int, b: int): int
    requires b != 0
  {
    if a == MinInt64 && b == -1 then MinInt64
    else
      var q := Abs(a) / Abs(b);
      if (a < 0) == (b < 0) then q else -q
  }

  /** Go's `a % b`. */
  function GoRem(a: int, b: int): int
    requires b != 0
  {
    if a == MinInt64 && b == -1 then 0
    else
      var r := Abs(a) % Abs(b);
      if a < 0 then -r else r
  }

  /** Go's division law: apart from the wrapping quotient, `a == b*q + r`,
      the remainder is smaller than the divisor and has the dividend's sign. */
  lemma GoDivisionLaw(a: int, b: int)
    requires b != 0
    requires !(a == MinInt64 && b == -1)
    ensures a == b * GoQuo(a, b) + GoRem(a, b)
    ensures Abs(GoRem(a, b)) < Abs(b)
    ensures GoRem(a, b) == 0 || ((GoRem(a, b) < 0) == (a < 0))
  {
    var q, r := Abs(a) / Abs(b), Abs(a) % Abs(b);
    assert Abs(a) == Abs(b) * q + r;
    if a < 0 && b < 0 {
      assert GoQuo(a, b) == q && GoRem(a, b) == -r;
      NegateProduct(Abs(b), q);
    } else if a < 0 {
      assert GoQuo(a, b) == -q && GoRem(a, b) == -r;
      NegateProduct(Abs(b), q);
    } else if b < 0 {
      assert GoQuo(a, b) == -q && GoRem(a, b) == r;
      NegateProduct(Abs(b), q);
    } else {
      assert GoQuo(a, b) == q && GoRem(a, b) == r;
    }
  }

  lemma NegateProduct(x: int, y: int)
    ensures (-x) * y == -(x * y) && x * (-y) == -(x * y) && (-x) * (-y) == x * y
  {
  }

  /** On a non-negative dividend and a positive divisor, Go and Dafny agree. */
  lemma GoDivisionNonNegative(a: int, b: int)
    requires a >= 0 && b > 0
    ensures GoQuo(a, b) == a / b && GoRem(a, b) == a % b
  {
  }

  /** Ceiling division, stated independently of the Go expression. */
  function CeilDiv(total: nat, limit: nat): nat
    requires limit > 0
  {
    (total + limit - 1) / limit
  }

  /** Euclidean division is determined by the division equation. */
  lemma DivUnique(a: int, b: int, q: int, r: int)
    requires b > 0 && 0 <= r < b && a == b * q + r
    ensures a / b == q
  {
    var q', r' := a / b, a % b;
    assert a == b * q' + r' && 0 <= r' < b;
    if q' > q {
      assert b * q' == b * q + b * (q' - q);
      AtLeastOneMultiple(b, q' - q);
    } else if q' < q {
      assert b * q == b * q' + b * (q - q');
      AtLeastOneMultiple(b, q - q');
    }
  }

  lemma {:induction false} AtLeastOneMultiple(b: int, d: int)
    requires b > 0 && d >= 1
    ensures b * d >= b
  {
    if d > 1 {
      AtLeastOneMultiple(b, d - 1);
      assert b * d == b * (d - 1) + b;
    }
  }

  /** `totalPages := total / limit; if total%limit != 0 { totalPages++ }`.
      For a positive limit and a non-negative total it is the ceiling of total/limit. */
  function TotalPages(total: int, limit: int): (tp: int)
    requires limit != 0
    ensures limit > 0 && total >= 0 ==> tp == CeilDiv(total, limit)
  {
    var q := GoQuo(total, limit);
    var pages := if GoRem(total, limit) != 0 then q + 1 else q;
    if limit > 0 && total >= 0 then
      GoDivisionNonNegative(total, limit);
      var r := total % limit;
      assert total == limit * q + r;
      if r == 0 then DivUnique(total + limit - 1, limit, q, limit - 1); pages
      else DivUnique(total + limit - 1, limit, q + 1, r - 1); pages
    else pages
  }

  /** The page count covers every item, the last page is not empty, and there
      are no pages exactly when there are no items. */
  lemma TotalPagesBounds(total: int, limit: int)
    requires limit > 0 && total >= 0
    ensures TotalPages(total, limit) >= 0
    ensures TotalPages(total, limit) * limit >= total
    ensures total > 0 ==> (TotalPages(total, limit) - 1) * limit < total
    ensures TotalPages(total, limit) == 0 <==> total == 0
  {
    GoDivisionNonNegative(total, limit);
    var q, r := total / limit, total % limit;
    assert TotalPages(total, limit) == if r == 0 then q else q + 1;
    PageCount(total, limit, q, r);
  }

  /** The page-count bounds, stated on the quotient and remainder alone. */
  lemma PageCount(total: int, limit: int, q: int, r: int)
    requires limit > 0 && total >= 0
    requires total == limit * q + r && 0 <= r < limit && q >= 0
    ensures var t := if r == 0 then q else q + 1;
      && t >= 0
      && t * limit >= total
      && (total > 0 ==> (t - 1) * limit < total)
      && (t == 0 <==> total == 0)
  {
    if r == 0 {
      assert (q - 1) * limit == limit * q - limit;
    } else {
      assert (q + 1) * limit == limit * q + limit;
      assert q * limit == limit * q;
    }
  }

  /** Worked cases: 25, 20 and 0 items at 10 per page. */
  lemma TotalPagesExamples()
    ensures TotalPages(25, 10) == 3
    ensures TotalPages(20, 10) == 2
    ensures TotalPages(0, 10) == 0
  {
  }

  /** `RespondPaginated(c, statusCode, data, page, limit, total)`. Go's integer
      division panics on a zero divisor, so `limit != 0` is the caller's duty. */
  function RespondPaginated(status: int, data: Any, page: int, limit: int, total: int): (r: Reply)
    requires limit != 0
    ensures r.status == status
    ensures r.body.Paginated? && r.body.paged.success
    ensures r.body.paged.data == data
    ensures r.body.paged.pagination.page == page
    ensures r.body.paged.pagination.limit == limit
    ensures r.body.paged.pagination.total == total
    ensures limit > 0 && total >= 0 ==> r.body.paged.pagination.totalPages == CeilDiv(total, limit)
  {
    Reply(status, Paginated(PaginatedResponse(true, data, Pagination(page, limit, total, TotalPages(total, limit)))))
  }
}
