/**
 * The HTTP boundary: level parsing, query-string to filter assembly,
 * error-to-status mapping, and the method and level guards in front of
 * the three use cases. JSON decoding, number and timestamp parsing are
 * given to the model from outside.
 */
module HttpHandlers {
  import opened Wrappers
  import opened DomainErrors
  import opened Entities
  import opened Interfaces
  import opened LogEventUseCases
  import opened QueryLogsUseCases
  import opened GetLogStatsUseCases

  // ---------------------------------------------------------------------
  // Level names
  // ---------------------------------------------------------------------

  function UpperChar(c: char): char
  {
    if 'a' <= c <= 'z' then (c as int - 32) as char else c
  }

  /** `strings.ToUpper`, restricted to the ASCII letters. */
  function ToUpper(s: string): (r: string)
  {
    seq(|s|, i requires 0 <= i < |s| => UpperChar(s[i]))
  }

  lemma ToUpperIdempotent(s: string)
    ensures ToUpper(ToUpper(s)) == ToUpper(s)
  {
  }

  /** A string without lower-case letters is its own upper case. */
  lemma ToUpperKeepsUpper(s: string)
    requires forall i | 0 <= i < |s| :: !('a' <= s[i] <= 'z')
    ensures ToUpper(s) == s
  {
  }

  /** The spellings the service accepts for a level, after upper-casing. */
  const LevelSpellings := {"DEBUG", "INFO", "WARNING", "WARN", "ERROR", "CRITICAL", "CRIT"}

  function ParseLogLevel(s: string): (r: Result<LogLevel>)
    ensures r.Ok? <==> ToUpper(s) in LevelSpellings
    ensures r.Ok? ==> LevelIsValid(r.value)
    ensures r.Err? ==> r.error == InvalidLogLevel
  {
    var u := ToUpper(s);
    if u == "DEBUG" then Ok(Debug)
    else if u == "INFO" then Ok(Info)
    else if u == "WARNING" || u == "WARN" then Ok(Warning)
    else if u == "ERROR" then Ok(Error)
    else if u == "CRITICAL" || u == "CRIT" then Ok(Critical)
    else Err(InvalidLogLevel)
  }

  /** Parsing ignores letter case. */
  lemma ParseLogLevelIgnoresCase(s: string)
    ensures ParseLogLevel(ToUpper(s)) == ParseLogLevel(s)
  {
    ToUpperIdempotent(s);
  }

  /** Every level's canonical name parses back to that level. */
  lemma LevelNameRoundTrip(l: LogLevel)
    requires LevelIsValid(l)
    ensures ParseLogLevel(LevelString(l)) == Ok(l)
  {
    var name := LevelString(l);
    ToUpperKeepsUpper(name);
  }

  /** The aliases and the mixed-case and rejected spellings of the handler tests. */
  lemma ParseLogLevelExamples()
    ensures ParseLogLevel("WARN") == Ok(Warning)
    ensures ParseLogLevel("CRIT") == Ok(Critical)
    ensures ParseLogLevel("debug") == Ok(Debug)
    ensures ParseLogLevel("Info") == Ok(Info)
    ensures ParseLogLevel("INVALID") == Err(InvalidLogLevel)
    ensures ParseLogLevel("") == Err(InvalidLogLevel)
  {
    ToUpperKeepsUpper("WARN");
    ToUpperKeepsUpper("CRIT");
    assert ToUpper("debug") == "DEBUG";
    assert ToUpper("Info") == "INFO";
    ToUpperKeepsUpper("INVALID");
  }

  // ---------------------------------------------------------------------
  // Responses
  // ---------------------------------------------------------------------

  const StatusOK := 200
  const StatusCreated := 201
  const StatusBadRequest := 400
  const StatusUnauthorized := 401
  const StatusMethodNotAllowed := 405
  const StatusTooManyRequests := 429
  const StatusInternalServerError := 500
  const StatusServiceUnavailable := 503

  datatype ResponseBody =
    | Created(created: LogEventResponse)
    | Logs(page: QueryLogsResponse)
    | Stats(report: GetLogStatsResponse)
    | ErrorBody(success: bool, error: string)

  datatype HttpResponse = HttpResponse(status: int, body: ResponseBody)

  /** `{"success": false, "error": message}` with the given status. */
  function ErrorResponse(status: int, message: string): HttpResponse
  {
    HttpResponse(status, ErrorBody(false, message))
  }

  predicate IsErrorResponse(r: HttpResponse)
  {
    r.status >= 400 && r.body.ErrorBody? && !r.body.success && r.body.error != ""
  }

  /** Status and message for an error coming back from a use case. */
  function HandleUseCaseError(e: DomainError): (r: HttpResponse)
    ensures IsErrorResponse(r)
    ensures r.status == StatusBadRequest <==> e == InvalidLogEntry || e == InvalidFilter
    ensures r.status == StatusServiceUnavailable <==> e == StorageUnavailable
    ensures r.status == StatusUnauthorized <==> e == Unauthorized
    ensures r.status == StatusTooManyRequests <==> e == RateLimitExceeded
    ensures r.status == StatusInternalServerError <==>
      e !in {InvalidLogEntry, InvalidFilter, StorageUnavailable, Unauthorized, RateLimitExceeded}
    ensures e == InvalidLogEntry ==> r.body.error == "Invalid log entry"
    ensures e == InvalidFilter ==> r.body.error == "Invalid filter parameters"
    ensures e == StorageUnavailable ==> r.body.error == "Storage unavailable"
    ensures e == Unauthorized ==> r.body.error == "Unauthorized access"
    ensures e == RateLimitExceeded ==> r.body.error == "Rate limit exceeded"
    ensures r.status == StatusInternalServerError ==> r.body.error == "Internal server error"
  {
    match e
    case InvalidLogEntry => ErrorResponse(StatusBadRequest, "Invalid log entry")
    case InvalidFilter => ErrorResponse(StatusBadRequest, "Invalid filter parameters")
    case StorageUnavailable => ErrorResponse(StatusServiceUnavailable, "Storage unavailable")
    case Unauthorized => ErrorResponse(StatusUnauthorized, "Unauthorized access")
    case RateLimitExceeded => ErrorResponse(StatusTooManyRequests, "Rate limit exceeded")
    case _ => ErrorResponse(StatusInternalServerError, "Internal server error")
  }

  // ---------------------------------------------------------------------
  // Query string to filter
  // ---------------------------------------------------------------------

  /** URL query values: each key with its values in order. */
  type Query = map<string, seq<string>>

  /** `query.Get(key)`: the first value, or "" when there is none. */
  function QueryGet(q: Query, key: string): string
  {
    if key in q && |q[key]| > 0 then q[key][0] else ""
  }

  /** `query[key]`: all values, in order. */
  function QueryValues(q: Query, key: string): seq<string>
  {
    if key in q then q[key] else []
  }

  /** A scalar parameter: not given, given and understood, or given and not understood. */
  datatype Param = Absent | Parsed(value: int) | Malformed

  function ParseParam(q: Query, key: string, parse: string -> Option<int>): Param
  {
    var s := QueryGet(q, key);
    if s == "" then Absent
    else match parse(s)
      case Some(v) => Parsed(v)
      case None => Malformed
  }

  function OrZero(p: Param): int
  {
    if p.Parsed? then p.value else 0
  }

  function OrNone(p: Param): Option<int>
  {
    if p.Parsed? then Some(p.value) else None
  }

  predicate AllLevelsParse(strs: seq<string>)
  {
    forall i | 0 <= i < |strs| :: ParseLogLevel(strs[i]).Ok?
  }

  /**
   * The message of the first parameter that fails to parse, in the order
   * the parameters are examined, or None when all of them parse.
   */
  function FirstParamError(q: Query, parseInt: string -> Option<int>, parseTime: string -> Option<int>): Option<string>
  {
    if ParseParam(q, "limit", parseInt).Malformed? then Some("Invalid limit parameter")
    else if ParseParam(q, "offset", parseInt).Malformed? then Some("Invalid offset parameter")
    else if !AllLevelsParse(QueryValues(q, "level")) then Some("Invalid level parameter")
    else if ParseParam(q, "user_id", parseInt).Malformed? then Some("Invalid user_id parameter")
    else if ParseParam(q, "chat_id", parseInt).Malformed? then Some("Invalid chat_id parameter")
    else if ParseParam(q, "time_from", parseTime).Malformed? then Some("Invalid time_from parameter (use RFC3339 format)")
    else if ParseParam(q, "time_to", parseTime).Malformed? then Some("Invalid time_to parameter (use RFC3339 format)")
    else None
  }

  function LevelOrZero(s: string): LogLevel
  {
    var r := ParseLogLevel(s);
    if r.Ok? then r.value else 0
  }

  /** The levels named by the `level` values, in order. */
  function ParsedLevels(strs: seq<string>): seq<LogLevel>
  {
    seq(|strs|, i requires 0 <= i < |strs| => LevelOrZero(strs[i]))
  }

  /**
   * The filter a query string describes when every parameter parses.
   * Absent parameters leave zero values; no range check is made here.
   */
  function AssembledFilter(q: Query, parseInt: string -> Option<int>, parseTime: string -> Option<int>): LogFilter
  {
    LogFilter(
      OrNone(ParseParam(q, "time_from", parseTime)),
      OrNone(ParseParam(q, "time_to", parseTime)),
      QueryValues(q, "service"),
      QueryValues(q, "event"),
      ParsedLevels(QueryValues(q, "level")),
      OrNone(ParseParam(q, "user_id", parseInt)),
      OrNone(ParseParam(q, "chat_id", parseInt)),
      QueryGet(q, "message_contains"),
      OrZero(ParseParam(q, "limit", parseInt)),
      OrZero(ParseParam(q, "offset", parseInt)),
      QueryGet(q, "sort_by"),
      QueryGet(q, "sort_order"))
  }

  /** An empty query string parses to the all-zero filter. */
  lemma EmptyQueryGivesEmptyFilter(parseInt: string -> Option<int>, parseTime: string -> Option<int>)
    ensures FirstParamError(map[], parseInt, parseTime) == None
    ensures AssembledFilter(map[], parseInt, parseTime) == EmptyFilter
  {
  }

  /** One unknown level anywhere among the `level` values fails the whole parse. */
  lemma OneBadLevelFailsParse(q: Query, parseInt: string -> Option<int>, parseTime: string -> Option<int>, i: int)
    requires 0 <= i < |QueryValues(q, "level")|
    requires ParseLogLevel(QueryValues(q, "level")[i]).Err?
    ensures FirstParamError(q, parseInt, parseTime).Some?
  {
  }

  /** The parsed levels are valid levels, in the order of the query string. */
  lemma AssembledLevelsValid(q: Query, parseInt: string -> Option<int>, parseTime: string -> Option<int>)
    requires FirstParamError(q, parseInt, parseTime) == None
    ensures var f := AssembledFilter(q, parseInt, parseTime);
      |f.levels| == |QueryValues(q, "level")|
      && forall i | 0 <= i < |f.levels| ::
           LevelIsValid(f.levels[i]) && Ok(f.levels[i]) == ParseLogLevel(QueryValues(q, "level")[i])
  {
    var strs := QueryValues(q, "level");
    assert AllLevelsParse(strs);
  }

  /** The `level` loop: every value is parsed in turn; the first unknown one stops it. */
  method ParseLevels(strs: seq<string>) returns (r: Result<seq<LogLevel>>)
    ensures r.Ok? <==> AllLevelsParse(strs)
    ensures r.Ok? ==> |r.value| == |strs| && forall i | 0 <= i < |strs| :: Ok(r.value[i]) == ParseLogLevel(strs[i])
    ensures r.Ok? ==> r.value == ParsedLevels(strs)
    ensures r.Err? ==> r.error == Other("Invalid level parameter")
  {
    var levels := [];
    for i := 0 to |strs|
      invariant |levels| == i
      invariant forall j | 0 <= j < i :: Ok(levels[j]) == ParseLogLevel(strs[j])
    {
      var level := ParseLogLevel(strs[i]);
      if level.Err? { return Err(Other("Invalid level parameter")); }
      levels := levels + [level.value];
    }
    assert levels == ParsedLevels(strs);
    return Ok(levels);
  }

  /**
   * Fills a filter from the query string, field by field, stopping at the
   * first bad parameter. An absent parameter writes the field's zero value,
   * which is what leaving the field untouched amounts to.
   */
  method ParseQueryFilters(q: Query, parseInt: string -> Option<int>, parseTime: string -> Option<int>)
    returns (r: Result<LogFilter>)
    ensures r.Err? <==> FirstParamError(q, parseInt, parseTime).Some?
    ensures r.Err? ==> r.error == Other(FirstParamError(q, parseInt, parseTime).value)
    ensures r.Ok? ==> r.value == AssembledFilter(q, parseInt, parseTime)
  {
    var filter := EmptyFilter;

    var limit := ParseParam(q, "limit", parseInt);
    if limit.Malformed? { return Err(Other("Invalid limit parameter")); }
    filter := filter.(limit := OrZero(limit));

    var offset := ParseParam(q, "offset", parseInt);
    if offset.Malformed? { return Err(Other("Invalid offset parameter")); }
    filter := filter.(offset := OrZero(offset));

    filter := filter.(services := QueryValues(q, "service"));
    filter := filter.(events := QueryValues(q, "event"));

    var levelStrs := QueryValues(q, "level");
    if |levelStrs| > 0 {
      var levels := ParseLevels(levelStrs);
      if levels.Err? { return Err(levels.error); }
      filter := filter.(levels := levels.value);
    }
    assert filter.levels == ParsedLevels(levelStrs);

    var userId := ParseParam(q, "user_id", parseInt);
    if userId.Malformed? { return Err(Other("Invalid user_id parameter")); }
    filter := filter.(userId := OrNone(userId));

    var chatId := ParseParam(q, "chat_id", parseInt);
    if chatId.Malformed? { return Err(Other("Invalid chat_id parameter")); }
    filter := filter.(chatId := OrNone(chatId));

    filter := filter.(messageContains := QueryGet(q, "message_contains"));

    var timeFrom := ParseParam(q, "time_from", parseTime);
    if timeFrom.Malformed? { return Err(Other("Invalid time_from parameter (use RFC3339 format)")); }
    filter := filter.(timeFrom := OrNone(timeFrom));

    var timeTo := ParseParam(q, "time_to", parseTime);
    if timeTo.Malformed? { return Err(Other("Invalid time_to parameter (use RFC3339 format)")); }
    filter := filter.(timeTo := OrNone(timeTo));

    filter := filter.(sortBy := QueryGet(q, "sort_by"));
    filter := filter.(sortOrder := QueryGet(q, "sort_order"));

    return Ok(filter);
  }

  // ---------------------------------------------------------------------
  // The handlers
  // ---------------------------------------------------------------------

  /** The decoded body of a create-log request; the level is still text. */
  datatype CreateLogBody = CreateLogBody(
    level: string,
    service: string,
    event: string,
    message: string,
    userId: Option<int>,
    chatId: Option<int>,
    metadata: Metadata)

  /** The use-case request built from a body whose level parsed to `level`. */
  function RequestFor(body: CreateLogBody, level: LogLevel): LogEventRequest
  {
    LogEventRequest(level, body.service, body.event, body.message, body.userId, body.chatId, body.metadata)
  }

  function CreatedResponse(r: Result<LogEventResponse>): (resp: HttpResponse)
    ensures r.Ok? ==> resp == HttpResponse(StatusCreated, Created(r.value))
    ensures r.Err? ==> resp == HandleUseCaseError(r.error) && IsErrorResponse(resp)
  {
    match r
    case Ok(v) => HttpResponse(StatusCreated, Created(v))
    case Err(e) => HandleUseCaseError(e)
  }

  function LogsResponse(r: Result<QueryLogsResponse>): (resp: HttpResponse)
    ensures r.Ok? ==> resp == HttpResponse(StatusOK, Logs(r.value))
    ensures r.Err? ==> resp == HandleUseCaseError(r.error) && IsErrorResponse(resp)
  {
    match r
    case Ok(v) => HttpResponse(StatusOK, Logs(v))
    case Err(e) => HandleUseCaseError(e)
  }

  function StatsResponse(r: Result<GetLogStatsResponse>): (resp: HttpResponse)
    ensures r.Ok? ==> resp == HttpResponse(StatusOK, Stats(r.value))
    ensures r.Err? ==> resp == HandleUseCaseError(r.error) && IsErrorResponse(resp)
  {
    match r
    case Ok(v) => HttpResponse(StatusOK, Stats(v))
    case Err(e) => HandleUseCaseError(e)
  }

  /**
   * A level the handler accepts always passes the use case's level check,
   * so a create-log request can fail there only on a blank text field.
   */
  lemma AcceptedLevelPassesUseCaseCheck(body: CreateLogBody)
    requires ParseLogLevel(body.level).Ok?
    ensures var req := RequestFor(body, ParseLogLevel(body.level).value);
      ValidateRequest(req) == Pass <==>
        TrimSpace(body.service) != "" && TrimSpace(body.event) != "" && TrimSpace(body.message) != ""
  {
  }

  /**
   * The three endpoints. Each `result` out-parameter is ghost: it is the
   * use case's answer when the use case was reached, and None when the
   * request was turned away before it.
   */
  class LogsHandler {
    const logEvent: LogEventUseCase
    const queryLogs: QueryLogsUseCase
    const getStats: GetLogStatsUseCase

    constructor (logEvent: LogEventUseCase, queryLogs: QueryLogsUseCase, getStats: GetLogStatsUseCase)
      ensures this.logEvent == logEvent && this.queryLogs == queryLogs && this.getStats == getStats
    {
      this.logEvent := logEvent;
      this.queryLogs := queryLogs;
      this.getStats := getStats;
    }

    /** POST /logs. `body` is None when the request body is not valid JSON. */
    method CreateLog(httpMethod: string, body: Option<CreateLogBody>)
      returns (resp: HttpResponse, ghost result: Option<Result<LogEventResponse>>)
      modifies logEvent.repository, logEvent.alertService, logEvent.idGenerator, logEvent.clock
      ensures httpMethod != "POST" ==> resp == ErrorResponse(StatusMethodNotAllowed, "Method not allowed")
      ensures httpMethod == "POST" && body.None? ==> resp == ErrorResponse(StatusBadRequest, "Invalid JSON format")
      ensures httpMethod == "POST" && body.Some? && ParseLogLevel(body.value.level).Err? ==>
        resp == ErrorResponse(StatusBadRequest, "Invalid log level")
      ensures result.None? <==> httpMethod != "POST" || body.None? || ParseLogLevel(body.value.level).Err?
      ensures result.None? ==> logEvent.Untouched()
      ensures result.Some? ==>
        && logEvent.Executed(RequestFor(body.value, ParseLogLevel(body.value.level).value), result.value)
        && resp == CreatedResponse(result.value)
    {
      if httpMethod != "POST" {
        return ErrorResponse(StatusMethodNotAllowed, "Method not allowed"), None;
      }
      if body.None? {
        return ErrorResponse(StatusBadRequest, "Invalid JSON format"), None;
      }
      var level := ParseLogLevel(body.value.level);
      if level.Err? {
        return ErrorResponse(StatusBadRequest, "Invalid log level"), None;
      }
      var request := RequestFor(body.value, level.value);
      var response := logEvent.Execute(request);
      result := Some(response);
      resp := CreatedResponse(response);
    }

    /** GET /logs. */
    method GetLogs(httpMethod: string, q: Query, parseInt: string -> Option<int>, parseTime: string -> Option<int>)
      returns (resp: HttpResponse, ghost result: Option<Result<QueryLogsResponse>>)
      modifies queryLogs.repository
      ensures httpMethod != "GET" ==> resp == ErrorResponse(StatusMethodNotAllowed, "Method not allowed")
      ensures httpMethod == "GET" && FirstParamError(q, parseInt, parseTime).Some? ==>
        resp == ErrorResponse(StatusBadRequest, FirstParamError(q, parseInt, parseTime).value)
      ensures result.None? <==> httpMethod != "GET" || FirstParamError(q, parseInt, parseTime).Some?
      ensures result.None? ==> unchanged(queryLogs.repository)
      ensures result.Some? ==>
        && queryLogs.Executed(QueryLogsRequest(AssembledFilter(q, parseInt, parseTime)), result.value)
        && resp == LogsResponse(result.value)
    {
      if httpMethod != "GET" {
        return ErrorResponse(StatusMethodNotAllowed, "Method not allowed"), None;
      }
      var filter := ParseQueryFilters(q, parseInt, parseTime);
      if filter.Err? {
        return ErrorResponse(StatusBadRequest, Message(filter.error)), None;
      }
      var response := queryLogs.Execute(QueryLogsRequest(filter.value));
      result := Some(response);
      resp := LogsResponse(response);
    }

    /** GET /logs/stats: the same query parameters, passed to the statistics use case. */
    method GetStats(httpMethod: string, q: Query, parseInt: string -> Option<int>, parseTime: string -> Option<int>)
      returns (resp: HttpResponse, ghost result: Option<Result<GetLogStatsResponse>>)
      modifies getStats.repository
      ensures httpMethod != "GET" ==> resp == ErrorResponse(StatusMethodNotAllowed, "Method not allowed")
      ensures httpMethod == "GET" && FirstParamError(q, parseInt, parseTime).Some? ==>
        resp == ErrorResponse(StatusBadRequest, FirstParamError(q, parseInt, parseTime).value)
      ensures result.None? <==> httpMethod != "GET" || FirstParamError(q, parseInt, parseTime).Some?
      ensures result.None? ==> unchanged(getStats.repository)
      ensures result.Some? ==>
        && getStats.Executed(GetLogStatsRequest(AssembledFilter(q, parseInt, parseTime)), result.value)
        && resp == StatsResponse(result.value)
    {
      if httpMethod != "GET" {
        return ErrorResponse(StatusMethodNotAllowed, "Method not allowed"), None;
      }
      var filter := ParseQueryFilters(q, parseInt, parseTime);
      if filter.Err? {
        return ErrorResponse(StatusBadRequest, Message(filter.error)), None;
      }
      var response := getStats.Execute(GetLogStatsRequest(filter.value));
      result := Some(response);
      resp := StatsResponse(response);
    }
  }
}
