/**
 * The query-logs use case: validate the filter, fill in the defaults, fetch
 * the page and then the total, and tell whether more entries follow.
 */
module QueryLogsUseCases {
  import opened Wrappers
  import opened DomainErrors
  import opened Entities
  import opened Interfaces
  import opened MemoryRepository

  datatype QueryLogsRequest = QueryLogsRequest(filter: LogFilter)

  datatype QueryLogsResponse = QueryLogsResponse(logs: seq<LogEntry>, totalCount: int, hasMore: bool)

  const MaxLimit := 1000
  const DefaultLimit := 100
  const DefaultSortBy := "timestamp"
  const DefaultSortOrder := "desc"

  /** Limit, offset and time order are checked; nothing else is. */
  function ValidateFilter(f: LogFilter): (r: Outcome)
    ensures r == Pass <==> 0 <= f.limit <= MaxLimit && f.offset >= 0 && TimeRangeOrdered(f)
    ensures r.Fail? ==> r.error == InvalidFilter
  {
    if f.limit < 0 then Fail(InvalidFilter)
    else if f.limit > MaxLimit then Fail(InvalidFilter)
    else if f.offset < 0 then Fail(InvalidFilter)
    else if f.timeFrom.Some? && f.timeTo.Some? && f.timeTo.value < f.timeFrom.value then Fail(InvalidFilter)
    else Pass
  }

  /** Zero limit and empty sort fields get their defaults; a set value is never overridden. */
  function ApplyDefaults(f: LogFilter): (r: LogFilter)
    ensures r.limit != 0 && r.sortBy != "" && r.sortOrder != ""
    ensures f.limit == 0 ==> r.limit == DefaultLimit
    ensures f.sortBy == "" ==> r.sortBy == DefaultSortBy
    ensures f.sortOrder == "" ==> r.sortOrder == DefaultSortOrder
    ensures f.limit != 0 ==> r.limit == f.limit
    ensures f.sortBy != "" ==> r.sortBy == f.sortBy
    ensures f.sortOrder != "" ==> r.sortOrder == f.sortOrder
    ensures r.(limit := f.limit, sortBy := f.sortBy, sortOrder := f.sortOrder) == f
  {
    var f1 := if f.limit == 0 then f.(limit := DefaultLimit) else f;
    var f2 := if f1.sortBy == "" then f1.(sortBy := DefaultSortBy) else f1;
    if f2.sortOrder == "" then f2.(sortOrder := DefaultSortOrder) else f2
  }

  /** Applying the defaults twice is the same as once. */
  lemma ApplyDefaultsIdempotent(f: LogFilter)
    ensures ApplyDefaults(ApplyDefaults(f)) == ApplyDefaults(f)
  {
  }

  /** A filter that passed validation reaches the repository with a page size in 1..1000. */
  lemma DefaultedFilterInRange(f: LogFilter)
    requires ValidateFilter(f) == Pass
    ensures 1 <= ApplyDefaults(f).limit <= MaxLimit
    ensures ApplyDefaults(f).offset >= 0
    ensures ValidateFilter(ApplyDefaults(f)) == Pass
  {
  }

  /** More entries follow the page. */
  function HasMore(offset: int, returned: int, total: int): bool
  {
    offset + returned < total
  }

  /**
   * Against the in-memory repository, HasMore says exactly that matching
   * entries exist past the end of the requested page.
   */
  lemma HasMoreMeansEntriesBeyondPage(s: seq<LogEntry>, offset: int, limit: int)
    requires offset >= 0 && limit > 0
    ensures HasMore(offset, |Page(s, offset, limit)|, |s|) <==> offset + limit < |s|
  {
  }

  /** The asserted pagination cases: one of ten is not the end, one of one is. */
  lemma HasMoreExamples()
    ensures HasMore(0, 1, 10)
    ensures !HasMore(0, 1, 1)
  {
  }

  class QueryLogsUseCase {
    const repository: LogRepository

    constructor (repository: LogRepository)
      ensures this.repository == repository
    {
      this.repository := repository;
    }

    /** What one call of Execute does, relating its result `r` to the repository before and after. */
    twostate predicate Executed(req: QueryLogsRequest, new r: Result<QueryLogsResponse>)
      reads repository
    {
      && repository.logs == old(repository.logs)
      && if ValidateFilter(req.filter).Fail? then
           // a rejected filter reaches neither Query nor Count
           r == Err(InvalidFilter) && repository.calls == old(repository.calls)
         else
           var f := ApplyDefaults(req.filter);
           if QueryOp in repository.faults then
             // Count is not called after a failed Query
             r == Err(repository.faults[QueryOp]) && repository.calls == old(repository.calls) + [QueryCall(f)]
           else
             // Query first, then Count, both with the defaulted filter
             && repository.calls == old(repository.calls) + [QueryCall(f), CountCall(f)]
             && if CountOp in repository.faults then
                  r == Err(repository.faults[CountOp])
                else
                  var matching := Select(repository.logs, f, true);
                  var page := Page(matching, f.offset, f.limit);
                  r == Ok(QueryLogsResponse(page, |matching|, HasMore(f.offset, |page|, |matching|)))
    }

    method Execute(req: QueryLogsRequest) returns (r: Result<QueryLogsResponse>)
      modifies repository
      ensures Executed(req, r)
    {
      var valid := ValidateFilter(req.filter);
      if valid.Fail? { return Err(valid.error); }

      var filter := ApplyDefaults(req.filter);

      var logs := repository.Query(filter);
      if logs.Err? { return Err(logs.error); }

      var totalCount := repository.Count(filter);
      if totalCount.Err? { return Err(totalCount.error); }

      var hasMore := HasMore(filter.offset, |logs.value|, totalCount.value);
      return Ok(QueryLogsResponse(logs.value, totalCount.value, hasMore));
    }
  }
}
