/**
 * The create-log use case: validate the request, build the entry from the
 * generated id and the clock, re-validate, store, and only then try the
 * alert, whose failure is swallowed.
 */
module LogEventUseCases {
  import opened Wrappers
  import opened DomainErrors
  import opened Entities
  import opened Interfaces
  import opened MemoryRepository
  import opened Collaborators

  datatype LogEventRequest = LogEventRequest(
    level: LogLevel,
    service: string,
    event: string,
    message: string,
    userId: Option<int>,
    chatId: Option<int>,
    metadata: Metadata)

  datatype LogEventResponse = LogEventResponse(id: string, timestamp: int, success: bool, alertSent: bool)

  /** The cheap checks made before any identifier or timestamp is produced. */
  function ValidateRequest(req: LogEventRequest): (r: Outcome)
    ensures r == Pass <==>
      LevelIsValid(req.level) && TrimSpace(req.service) != "" && TrimSpace(req.event) != "" && TrimSpace(req.message) != ""
    ensures r.Fail? ==> r.error == InvalidLogEntry
  {
    if !LevelIsValid(req.level) then Fail(InvalidLogEntry)
    else if TrimSpace(req.service) == "" then Fail(InvalidLogEntry)
    else if TrimSpace(req.event) == "" then Fail(InvalidLogEntry)
    else if TrimSpace(req.message) == "" then Fail(InvalidLogEntry)
    else Pass
  }

  /** The entry the use case builds: request fields verbatim, plus the id and the time. */
  function BuildEntry(req: LogEventRequest, id: string, timestamp: int): LogEntry
  {
    LogEntry(id, req.level, req.service, req.event, timestamp, req.userId, req.chatId, req.message, req.metadata)
  }

  /**
   * The request check is the entry's own validity rule minus the two fields
   * the use case supplies: the built entry is valid exactly when the request
   * passed and the id and timestamp are set.
   */
  lemma RequestCheckMatchesEntryRule(req: LogEventRequest, id: string, timestamp: int)
    ensures IsValid(BuildEntry(req, id, timestamp)) <==>
      ValidateRequest(req) == Pass && TrimSpace(id) != "" && timestamp != 0
  {
  }

  /** With the counting generator, a request that passed fails re-validation only on a zero clock. */
  lemma GeneratedEntryValid(req: LogEventRequest, n: nat, timestamp: int)
    requires ValidateRequest(req) == Pass
    ensures IsValid(BuildEntry(req, IdFor(n), timestamp)) <==> timestamp != 0
  {
    IdForNotBlank(n);
  }

  class LogEventUseCase {
    const repository: LogRepository
    const alertService: AlertService
    const idGenerator: IdGenerator
    const clock: FixedClock

    constructor (repository: LogRepository, alertService: AlertService, idGenerator: IdGenerator, clock: FixedClock)
      ensures this.repository == repository && this.alertService == alertService
      ensures this.idGenerator == idGenerator && this.clock == clock
    {
      this.repository := repository;
      this.alertService := alertService;
      this.idGenerator := idGenerator;
      this.clock := clock;
    }

    /** Nothing the use case can touch has changed. */
    twostate predicate Untouched()
      reads repository, alertService, idGenerator, clock
    {
      && unchanged(repository)
      && unchanged(alertService)
      && unchanged(idGenerator)
      && unchanged(clock)
    }

    /**
     * What one call of Execute does: `r` is its result, and the
     * collaborators' states before and after are related as follows.
     */
    twostate predicate Executed(req: LogEventRequest, new r: Result<LogEventResponse>)
      reads repository, alertService, idGenerator, clock
    {
      if ValidateRequest(req).Fail? then
        // rejected before the generator, the clock, the store or the alerter is used
        r == Err(InvalidLogEntry) && Untouched()
      else
        var id := idGenerator.script(old(idGenerator.counter) + 1);
        var entry := BuildEntry(req, id, clock.fixedTime);
        && idGenerator.counter == old(idGenerator.counter) + 1
        && clock.readCount == old(clock.readCount) + 1
        && unchanged(alertService`healthy)
        && if !IsValid(entry) then
             // the generator or the clock gave an unset value: nothing is stored
             r == Err(InvalidLogEntry) && unchanged(repository) && unchanged(alertService)
           else
             && repository.calls == old(repository.calls) + [StoreCall(entry)]
             && if StoreOp in repository.faults then
                  // the store's error is returned as it is, and no alert is tried
                  r == Err(repository.faults[StoreOp])
                  && repository.logs == old(repository.logs) && unchanged(alertService)
                else
                  var alertSent := ShouldAlert(entry) && alertService.healthy;
                  && repository.logs == old(repository.logs) + [entry]
                  && alertService.attempts == old(alertService.attempts) + (if ShouldAlert(entry) then [entry] else [])
                  && alertService.sentAlerts == old(alertService.sentAlerts) + (if alertSent then [entry] else [])
                  && r == Ok(LogEventResponse(id, clock.fixedTime, true, alertSent))
    }

    method Execute(req: LogEventRequest) returns (r: Result<LogEventResponse>)
      modifies repository, alertService, idGenerator, clock
      ensures Executed(req, r)
    {
      var valid := ValidateRequest(req);
      if valid.Fail? { return Err(valid.error); }

      var id := idGenerator.Generate();
      var now := clock.Now();
      var entry := BuildEntry(req, id, now);
      if !IsValid(entry) { return Err(InvalidLogEntry); }

      var stored := repository.Store(entry);
      if stored.Fail? { return Err(stored.error); }

      var alertSent := false;
      if ShouldAlert(entry) {
        var sent := alertService.SendAlert(entry);
        if sent.Pass? { alertSent := true; }
      }
      return Ok(LogEventResponse(entry.id, entry.timestamp, true, alertSent));
    }
  }
}
