/**
 * The HTTP handlers of the three report endpoints: reading the date range and the limit from
 * the query string, calling the service, and choosing the status code of the reply. A reply is
 * the status and the body the handler would write as JSON.
 */
module ReportsHandler {
  import opened Wrappers
  import opened Decimal
  import opened Dates
  import opened TtlCache
  import opened Reports

  /** The request's query parameters (the first value of each name). */
  type QueryParams = map<string, string>

  const StatusOK: int := 200
  const StatusBadRequest: int := 400
  const StatusInternalServerError: int := 500

  /** The date text that `time.Parse` rejected. */
  datatype DateError = InvalidDate(text: string)

  datatype DateRange = DateRange(startDate: CalendarDate, endDate: CalendarDate)

  datatype ErrorMessage = DateParseError(cause: DateError) | ServiceError(message: string)

  /** The JSON body: `{"error": ...}` or the service's response. */
  datatype Body<T> = ErrorBody(error: ErrorMessage) | ResultBody(result: T)

  datatype Reply<T> = Reply(status: int, body: Body<T>)

  /** Gin's `DefaultQuery`: the parameter when present (even if empty), the default otherwise. */
  function DefaultQuery(params: QueryParams, name: string, default: string): (v: string)
    ensures name in params ==> v == params[name]
    ensures name !in params ==> v == default
  {
    if name in params then params[name] else default
  }

  /**
   * The checks of `parseDateRange` on the two texts, in order. The start text is parsed first and
   * its error wins; then the end text. Two valid dates in order come back as they are. Two valid
   * dates in the wrong order come back as two zero dates and NO error, because the error returned
   * there is the one from parsing the end text, which is nil.
   */
  function ParseDates(startText: string, endText: string): (r: Result<DateRange, DateError>)
    ensures Parse(startText).None? ==> r == Failure(InvalidDate(startText))
    ensures Parse(startText).Some? && Parse(endText).None? ==> r == Failure(InvalidDate(endText))
    ensures r.Success? <==> Parse(startText).Some? && Parse(endText).Some?
    ensures r.Success? && !After(Parse(startText).value, Parse(endText).value) ==>
      r.value == DateRange(Parse(startText).value, Parse(endText).value)
    ensures r.Success? && After(Parse(startText).value, Parse(endText).value) ==>
      r.value == DateRange(Zero, Zero)
  {
    match Parse(startText)
    case None => Failure(InvalidDate(startText))
    case Some(startDate) =>
      match Parse(endText)
      case None => Failure(InvalidDate(endText))
      case Some(endDate) =>
        if After(startDate, endDate) then Success(DateRange(Zero, Zero))
        else Success(DateRange(startDate, endDate))
  }

  /**
   * `parseDateRange`: the texts come from `start_date` and `end_date`, or from the defaults
   * (a month ago and today, computed by the caller from the clock).
   */
  function ParseDateRange(params: QueryParams, defaultStart: string, defaultEnd: string): (r: Result<DateRange, DateError>)
    ensures r == ParseDates(DefaultQuery(params, "start_date", defaultStart), DefaultQuery(params, "end_date", defaultEnd))
  {
    var startText := DefaultQuery(params, "start_date", defaultStart);
    var endText := DefaultQuery(params, "end_date", defaultEnd);
    ParseDates(startText, endText)
  }

  /** Every range `parseDateRange` accepts is ordered, the inverted-range case included. */
  lemma AcceptedRangesAreOrdered(startText: string, endText: string)
    requires ParseDates(startText, endText).Success?
    ensures !After(ParseDates(startText, endText).value.startDate, ParseDates(startText, endText).value.endDate)
  {
  }

  /** An inverted range is not reported as an error: it becomes the zero range. */
  lemma InvertedRangeIsNotAnError()
    ensures ParseDates("2024-02-01", "2024-01-31") == Success(DateRange(Zero, Zero))
  {
  }

  /** The limit clamp: a missing, non-integer or out-of-range limit becomes 10. */
  function ClampLimit(text: string): (limit: int)
    ensures 1 <= limit <= 100
    ensures Atoi(text).Some? && 1 <= Atoi(text).value <= 100 ==> limit == Atoi(text).value
    ensures Atoi(text).None? || Atoi(text).value < 1 || Atoi(text).value > 100 ==> limit == 10
  {
    match Atoi(text)
    case None => 10
    case Some(n) => if n < 1 || n > 100 then 10 else n
  }

  /** The limit of a top-customers request. */
  function LimitOf(params: QueryParams): (limit: int)
    ensures 1 <= limit <= 100
    ensures "limit" !in params ==> limit == 10
    ensures limit == ClampLimit(DefaultQuery(params, "limit", "10"))
  {
    AtoiOfFormatInt(10);
    assert FormatInt(10) == "10";
    ClampLimit(DefaultQuery(params, "limit", "10"))
  }

  /** Every limit the clamp can produce is kept when it is sent back as its decimal text. */
  lemma ClampLimitKeepsValidLimits(n: int)
    requires 1 <= n <= 100
    ensures ClampLimit(FormatInt(n)) == n
  {
    AtoiOfFormatInt(n);
  }

  /** The reply once the date range has been accepted: 500 on a service error, 200 otherwise. */
  function ServiceReply<T>(r: Result<T, string>): (reply: Reply<T>)
    ensures reply.status == StatusInternalServerError <==> r.Failure?
    ensures reply.status == StatusOK <==> r.Success?
    ensures r.Failure? ==> reply.body == ErrorBody(ServiceError(r.error))
    ensures r.Success? ==> reply.body == ResultBody(r.value)
  {
    match r
    case Failure(e) => Reply(StatusInternalServerError, ErrorBody(ServiceError(e)))
    case Success(v) => Reply(StatusOK, ResultBody(v))
  }

  /**
   * The status selection of the handler of the parallel endpoint, given what the service returned:
   * a date error gives 400 whatever the service result, otherwise 500 or 200 as for the others.
   */
  function ParallelReply<T>(params: QueryParams, defaultStart: string, defaultEnd: string,
                            serviceResult: Result<T, string>): (reply: Reply<T>)
    ensures ParseDateRange(params, defaultStart, defaultEnd).Failure? ==>
      reply == BadRequestReply(ParseDateRange(params, defaultStart, defaultEnd).error)
    ensures ParseDateRange(params, defaultStart, defaultEnd).Success? ==> reply == ServiceReply(serviceResult)
    ensures reply.status == StatusOK <==> ParseDateRange(params, defaultStart, defaultEnd).Success? && serviceResult.Success?
  {
    var parsed := ParseDateRange(params, defaultStart, defaultEnd);
    if parsed.Failure? then BadRequestReply(parsed.error) else ServiceReply(serviceResult)
  }

  function BadRequestReply<T>(e: DateError): (reply: Reply<T>)
    ensures reply.status == StatusBadRequest && reply.body == ErrorBody(DateParseError(e))
  {
    Reply(StatusBadRequest, ErrorBody(DateParseError(e)))
  }

  class Handler {
    const service: Service

    constructor (service: Service)
      ensures this.service == service
    {
      this.service := service;
    }

    /** The objects a profit-and-loss request may write: the cached response a hit marks as cached. */
    function ProfitLossFrame(params: QueryParams, defaultStart: string, defaultEnd: string, now: int): set<object>
      reads service.cache
    {
      match ParseDateRange(params, defaultStart, defaultEnd)
      case Failure(_) => {}
      case Success(range) => service.CachedProfitLoss(ProfitLossKey(range.startDate, range.endDate), now)
    }

    function RevenueByCategoryFrame(params: QueryParams, defaultStart: string, defaultEnd: string, now: int): set<object>
      reads service.cache
    {
      match ParseDateRange(params, defaultStart, defaultEnd)
      case Failure(_) => {}
      case Success(range) => service.CachedRevenueByCategory(RevenueByCategoryKey(range.startDate, range.endDate), now)
    }

    function TopCustomersFrame(params: QueryParams, defaultStart: string, defaultEnd: string, now: int): set<object>
      reads service.cache
    {
      match ParseDateRange(params, defaultStart, defaultEnd)
      case Failure(_) => {}
      case Success(range) =>
        service.CachedTopCustomers(TopCustomersKey(range.startDate, range.endDate, LimitOf(params)), now)
    }

    /** GET /api/reports/profit-loss */
    method GetProfitLoss(params: QueryParams, defaultStart: string, defaultEnd: string, now: int)
      returns (reply: Reply<ProfitLossResponse>)
      modifies service.cache, service.db, ProfitLossFrame(params, defaultStart, defaultEnd, now)
      ensures ParseDateRange(params, defaultStart, defaultEnd).Failure? ==>
        && reply == BadRequestReply(ParseDateRange(params, defaultStart, defaultEnd).error)
        && service.db.log == old(service.db.log) && service.cache.entries == old(service.cache.entries)
      ensures ParseDateRange(params, defaultStart, defaultEnd).Success? ==>
        var range := ParseDateRange(params, defaultStart, defaultEnd).value;
        && (reply.status == StatusOK || reply.status == StatusInternalServerError)
        && (reply.status == StatusOK ==>
              reply.body.ResultBody? && service.ProfitLossServed(range.startDate, range.endDate, now, Success(reply.body.result)))
        && (reply.status == StatusInternalServerError ==>
              reply.body.ErrorBody? && reply.body.error.ServiceError?
              && service.ProfitLossServed(range.startDate, range.endDate, now, Failure(reply.body.error.message)))
    {
      var parsed := ParseDateRange(params, defaultStart, defaultEnd);
      if parsed.Failure? {
        return BadRequestReply(parsed.error);
      }
      var range := parsed.value;
      var result := service.GetProfitLoss(range.startDate, range.endDate, now);
      reply := ServiceReply(result);
    }

    /** GET /api/reports/revenue-category */
    method GetRevenueByCategory(params: QueryParams, defaultStart: string, defaultEnd: string, now: int)
      returns (reply: Reply<RevenueByCategoryResponse>)
      modifies service.cache, service.db, RevenueByCategoryFrame(params, defaultStart, defaultEnd, now)
      ensures ParseDateRange(params, defaultStart, defaultEnd).Failure? ==>
        && reply == BadRequestReply(ParseDateRange(params, defaultStart, defaultEnd).error)
        && service.db.log == old(service.db.log) && service.cache.entries == old(service.cache.entries)
      ensures ParseDateRange(params, defaultStart, defaultEnd).Success? ==>
        var range := ParseDateRange(params, defaultStart, defaultEnd).value;
        && (reply.status == StatusOK || reply.status == StatusInternalServerError)
        && (reply.status == StatusOK ==>
              reply.body.ResultBody? && service.RevenueByCategoryServed(range.startDate, range.endDate, now, Success(reply.body.result)))
        && (reply.status == StatusInternalServerError ==>
              reply.body.ErrorBody? && reply.body.error.ServiceError?
              && service.RevenueByCategoryServed(range.startDate, range.endDate, now, Failure(reply.body.error.message)))
    {
      var parsed := ParseDateRange(params, defaultStart, defaultEnd);
      if parsed.Failure? {
        return BadRequestReply(parsed.error);
      }
      var range := parsed.value;
      var result := service.GetRevenueByCategory(range.startDate, range.endDate, now);
      reply := ServiceReply(result);
    }

    /** GET /api/reports/top-customers */
    method GetTopCustomers(params: QueryParams, defaultStart: string, defaultEnd: string, now: int)
      returns (reply: Reply<TopCustomersResponse>)
      modifies service.cache, service.db, TopCustomersFrame(params, defaultStart, defaultEnd, now)
      ensures ParseDateRange(params, defaultStart, defaultEnd).Failure? ==>
        && reply == BadRequestReply(ParseDateRange(params, defaultStart, defaultEnd).error)
        && service.db.log == old(service.db.log) && service.cache.entries == old(service.cache.entries)
      ensures ParseDateRange(params, defaultStart, defaultEnd).Success? ==>
        var range := ParseDateRange(params, defaultStart, defaultEnd).value;
        && (reply.status == StatusOK || reply.status == StatusInternalServerError)
        && (reply.status == StatusOK ==>
              reply.body.ResultBody?
              && service.TopCustomersServed(range.startDate, range.endDate, LimitOf(params), now, Success(reply.body.result)))
        && (reply.status == StatusInternalServerError ==>
              reply.body.ErrorBody? && reply.body.error.ServiceError?
              && service.TopCustomersServed(range.startDate, range.endDate, LimitOf(params), now, Failure(reply.body.error.message)))
    {
      var parsed := ParseDateRange(params, defaultStart, defaultEnd);
      if parsed.Failure? {
        return BadRequestReply(parsed.error);
      }
      var range := parsed.value;
      var limitText := DefaultQuery(params, "limit", "10");
      var limit := ClampLimit(limitText);
      var result := service.GetTopCustomers(range.startDate, range.endDate, limit, now);
      reply := ServiceReply(result);
    }
  }
}
