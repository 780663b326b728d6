/** The get-stats use case: check the time order only, then hand the filter to the repository. */
module GetLogStatsUseCases {
  import opened Wrappers
  import opened DomainErrors
  import opened Entities
  import opened Interfaces
  import opened MemoryRepository
  import QueryLogsUseCases

  datatype GetLogStatsRequest = GetLogStatsRequest(filter: LogFilter)

  datatype GetLogStatsResponse = GetLogStatsResponse(stats: LogStats)

  /** Only the ordering of the time bounds is checked. */
  function ValidateStatsFilter(f: LogFilter): (r: Outcome)
    ensures r == Pass <==> TimeRangeOrdered(f)
    ensures r.Fail? ==> r.error == InvalidFilter
  {
    if f.timeFrom.Some? && f.timeTo.Some? && f.timeTo.value < f.timeFrom.value then Fail(InvalidFilter)
    else Pass
  }

  /** Pagination and sort fields do not matter to the stats check, whatever their values. */
  lemma StatsCheckIgnoresPaging(f: LogFilter, limit: int, offset: int, sortBy: string, sortOrder: string)
    ensures ValidateStatsFilter(f.(limit := limit, offset := offset, sortBy := sortBy, sortOrder := sortOrder))
         == ValidateStatsFilter(f)
  {
  }

  /** The stats check is strictly weaker than the query check: a negative limit passes one and not the other. */
  lemma StatsCheckWeakerThanQueryCheck(f: LogFilter)
    ensures QueryLogsUseCases.ValidateFilter(f) == Pass ==> ValidateStatsFilter(f) == Pass
    ensures ValidateStatsFilter(EmptyFilter.(limit := -1)) == Pass
    ensures QueryLogsUseCases.ValidateFilter(EmptyFilter.(limit := -1)) != Pass
  {
  }

  class GetLogStatsUseCase {
    const repository: LogRepository

    constructor (repository: LogRepository)
      ensures this.repository == repository
    {
      this.repository := repository;
    }

    /** What one call of Execute does, relating its result `r` to the repository before and after. */
    twostate predicate Executed(req: GetLogStatsRequest, new r: Result<GetLogStatsResponse>)
      reads repository
    {
      && repository.logs == old(repository.logs)
      && if ValidateStatsFilter(req.filter).Fail? then
           r == Err(InvalidFilter) && repository.calls == old(repository.calls)
         else
           // the filter goes to the repository exactly as it came, without defaults
           && repository.calls == old(repository.calls) + [GetStatsCall(req.filter)]
           && if GetStatsOp in repository.faults then
                r == Err(repository.faults[GetStatsOp])
              else
                r == Ok(GetLogStatsResponse(StatsOf(Select(repository.logs, req.filter, true))))
    }

    method Execute(req: GetLogStatsRequest) returns (r: Result<GetLogStatsResponse>)
      modifies repository
      ensures Executed(req, r)
    {
      var valid := ValidateStatsFilter(req.filter);
      if valid.Fail? { return Err(valid.error); }

      var stats := repository.GetStats(req.filter);
      if stats.Err? { return Err(stats.error); }

      return Ok(GetLogStatsResponse(stats.value));
    }
  }
}
