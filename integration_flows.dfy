/**
 * End-to-end flows through the whole stack wired as in the integration
 * tests: one in-memory repository shared by the three use cases, a
 * counting id generator, a fixed clock and an alert service, all behind
 * the HTTP handler.
 */
module IntegrationFlows {
  import opened Wrappers
  import opened DomainErrors
  import opened Entities
  import opened Interfaces
  import opened MemoryRepository
  import opened Collaborators
  import opened LogEventUseCases
  import opened QueryLogsUseCases
  import opened GetLogStatsUseCases
  import opened HttpHandlers
  import LoggingClient

  /** Every level name the client library sends is accepted by the service and read back as itself. */
  lemma SentLevelsAccepted()
    ensures forall s | s in LoggingClient.SentLevelNames ::
      ParseLogLevel(s).Ok? && LevelString(ParseLogLevel(s).value) == s
  {
    LevelNameRoundTrip(Debug);
    LevelNameRoundTrip(Info);
    LevelNameRoundTrip(Warning);
    LevelNameRoundTrip(Error);
    LevelNameRoundTrip(Critical);
  }

  /** A request body whose fields all pass the service's checks. */
  predicate AcceptableBody(body: CreateLogBody)
  {
    && ParseLogLevel(body.level).Ok?
    && TrimSpace(body.service) != ""
    && TrimSpace(body.event) != ""
    && TrimSpace(body.message) != ""
  }

  /**
   * The first POST /logs against a fresh stack: 201 with id "log-1" and the
   * clock's time; the entry is the only one stored; an alert goes out
   * exactly for ERROR and CRITICAL and only while the alert service is
   * healthy, and an unhealthy one never turns the request into an error.
   */
  method CreateLogFlow(body: CreateLogBody, healthy: bool)
    returns (resp: HttpResponse, stored: seq<LogEntry>, alerted: seq<LogEntry>)
    requires AcceptableBody(body)
    ensures var level := ParseLogLevel(body.level).value;
      var entry := BuildEntry(RequestFor(body, level), "log-1", IntegrationTime);
      var alertSent := healthy && (level == Error || level == Critical);
      && resp == HttpResponse(StatusCreated, Created(LogEventResponse("log-1", IntegrationTime, true, alertSent)))
      && stored == [entry]
      && alerted == (if alertSent then [entry] else [])
  {
    var repo := new LogRepository(map[]);
    var alerts := new AlertService(healthy);
    var ids := new IdGenerator.Counting();
    var clock := new FixedClock(IntegrationTime);
    var logEvent := new LogEventUseCase(repo, alerts, ids, clock);
    var queryLogs := new QueryLogsUseCase(repo);
    var getStats := new GetLogStatsUseCase(repo);
    var handler := new LogsHandler(logEvent, queryLogs, getStats);

    var level := ParseLogLevel(body.level).value;
    var request := RequestFor(body, level);
    AcceptedLevelPassesUseCaseCheck(body);
    assert IdFor(1) == "log-1";
    GeneratedEntryValid(request, 1, IntegrationTime);
    ghost var entry := BuildEntry(request, "log-1", IntegrationTime);
    assert IsValid(entry);
    assert ShouldAlert(entry) <==> level == Error || level == Critical;

    assert ValidateRequest(request) == Pass;
    assert handler.logEvent == logEvent && logEvent.repository == repo && logEvent.alertService == alerts;
    assert logEvent.idGenerator == ids && logEvent.clock == clock && clock.fixedTime == IntegrationTime;
    assert ids.script(ids.counter + 1) == "log-1";

    ghost var result;
    label beforeCall:
    resp, result := handler.CreateLog("POST", Some(body));
    assert logEvent.Executed@beforeCall(request, result.value);
    assert old@beforeCall(ids.counter) == 0 && old@beforeCall(repo.logs) == [];
    assert old@beforeCall(alerts.sentAlerts) == [] && alerts.healthy == healthy;
    assert repo.logs == [entry];
    assert result.value == Ok(LogEventResponse("log-1", IntegrationTime, true, ShouldAlert(entry) && healthy));
    stored := repo.logs;
    alerted := alerts.sentAlerts;
  }

  /** POST /logs with a blank service is refused with 400 and stores nothing. */
  method BlankServiceFlow(level: string, event: string, message: string)
    returns (resp: HttpResponse, stored: seq<LogEntry>)
    requires ParseLogLevel(level).Ok?
    ensures resp == ErrorResponse(StatusBadRequest, "Invalid log entry")
    ensures stored == []
  {
    var repo := new LogRepository(map[]);
    var alerts := new AlertService(true);
    var ids := new IdGenerator.Counting();
    var clock := new FixedClock(IntegrationTime);
    var logEvent := new LogEventUseCase(repo, alerts, ids, clock);
    var queryLogs := new QueryLogsUseCase(repo);
    var getStats := new GetLogStatsUseCase(repo);
    var handler := new LogsHandler(logEvent, queryLogs, getStats);

    assert TrimSpace("") == "";
    ghost var result;
    resp, result := handler.CreateLog("POST", Some(CreateLogBody(level, "", event, message, None, None, map[])));
    stored := repo.logs;
  }

  /**
   * The create-log use case as its own tests wire it: a scripted id
   * generator and clock over an empty store. A blank first id or an unset
   * time is refused with InvalidLogEntry before anything is stored or
   * alerted; otherwise the entry carries the scripted id and time.
   */
  method ScriptedEntryFlow(request: LogEventRequest, script: nat -> string, now: int)
    returns (r: Result<LogEventResponse>, stored: seq<LogEntry>, alerted: seq<LogEntry>)
    requires ValidateRequest(request) == Pass
    ensures r.Err? <==> TrimSpace(script(1)) == "" || now == 0
    ensures r.Err? ==> r.error == InvalidLogEntry && stored == [] && alerted == []
    ensures r.Ok? ==> r.value.id == script(1) && r.value.timestamp == now
    ensures r.Ok? ==> stored == [BuildEntry(request, script(1), now)]
  {
    var repo := new LogRepository(map[]);
    var alerts := new AlertService(true);
    var ids := new IdGenerator(script);
    var clock := new FixedClock(now);
    var logEvent := new LogEventUseCase(repo, alerts, ids, clock);
    RequestCheckMatchesEntryRule(request, script(1), now);
    assert logEvent.repository == repo && logEvent.alertService == alerts;
    assert logEvent.idGenerator == ids && logEvent.clock == clock && ids.counter == 0;
    r := logEvent.Execute(request);
    stored := repo.logs;
    alerted := alerts.sentAlerts;
  }

  /** A fresh repository holding exactly `entries`, stored one by one. */
  method Populate(entries: seq<LogEntry>) returns (repo: LogRepository)
    requires forall i | 0 <= i < |entries| :: IsValid(entries[i])
    ensures fresh(repo) && repo.logs == entries && repo.faults == map[]
  {
    repo := new LogRepository(map[]);
    for i := 0 to |entries|
      invariant repo.logs == entries[..i] && repo.faults == map[]
    {
      var _ := repo.Store(entries[i]);
    }
  }

  /** A fresh handler wired to `repo` and the integration tests' other collaborators. */
  method HandlerOver(repo: LogRepository) returns (handler: LogsHandler)
    ensures fresh(handler) && fresh(handler.logEvent) && fresh(handler.queryLogs) && fresh(handler.getStats)
    ensures handler.queryLogs.repository == repo && handler.getStats.repository == repo
  {
    var alerts := new AlertService(true);
    var ids := new IdGenerator.Counting();
    var clock := new FixedClock(IntegrationTime);
    var logEvent := new LogEventUseCase(repo, alerts, ids, clock);
    var queryLogs := new QueryLogsUseCase(repo);
    var getStats := new GetLogStatsUseCase(repo);
    handler := new LogsHandler(logEvent, queryLogs, getStats);
  }

  /**
   * GET /logs with no parameters over up to 100 stored entries: all of
   * them, in insertion order, with the full count and nothing more to fetch.
   */
  method QueryAllFlow(entries: seq<LogEntry>, parseInt: string -> Option<int>, parseTime: string -> Option<int>)
    returns (resp: HttpResponse)
    requires forall i | 0 <= i < |entries| :: IsValid(entries[i])
    requires |entries| <= DefaultLimit
    ensures resp == HttpResponse(StatusOK, Logs(QueryLogsResponse(entries, |entries|, false)))
  {
    var repo := Populate(entries);
    var handler := HandlerOver(repo);
    EmptyQueryGivesEmptyFilter(parseInt, parseTime);
    assert ValidateFilter(EmptyFilter) == Pass;
    ghost var f := ApplyDefaults(EmptyFilter);
    assert f.offset == 0 && f.limit == DefaultLimit;
    assert forall i | 0 <= i < |entries| :: Matches(entries[i], f);
    SelectKeepsAllMatching(entries, f);
    assert Page(entries, 0, DefaultLimit) == entries;
    assert !HasMore(0, |entries|, |entries|);

    ghost var result;
    label beforeCall:
    resp, result := handler.GetLogs("GET", map[], parseInt, parseTime);
    assert handler.queryLogs.Executed@beforeCall(QueryLogsRequest(EmptyFilter), result.value);
    assert result.value == Ok(QueryLogsResponse(entries, |entries|, false));
  }

  /**
   * GET /logs/stats with no parameters: the total is the number of stored
   * entries, and each breakdown sums to it.
   */
  method StatsFlow(entries: seq<LogEntry>, parseInt: string -> Option<int>, parseTime: string -> Option<int>)
    returns (resp: HttpResponse)
    requires forall i | 0 <= i < |entries| :: IsValid(entries[i])
    ensures resp.status == StatusOK && resp.body.Stats?
    ensures var st := resp.body.report.stats;
      && st == StatsOf(entries)
      && st.totalCount == |entries|
      && MapSum(st.countByLevel) == |entries|
      && MapSum(st.countByService) == |entries|
      && MapSum(st.countByEvent) == |entries|
  {
    var repo := Populate(entries);
    var handler := HandlerOver(repo);
    EmptyQueryGivesEmptyFilter(parseInt, parseTime);
    SelectKeepsAllMatching(entries, EmptyFilter);
    StatsTotals(entries);
    ghost var result;
    resp, result := handler.GetStats("GET", map[], parseInt, parseTime);
  }
}
