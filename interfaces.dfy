/**
 * The value objects exchanged with the repository: the query filter, the
 * statistics record, and the names of the repository's operations.
 */
module Interfaces {
  import opened Wrappers
  import opened Entities

  /**
   * A query specification. Empty sequences impose no restriction; `None`
   * time bounds and ids are unset; zero limit, offset and empty sort
   * fields are the unset values the query use case defaults.
   */
  datatype LogFilter = LogFilter(
    timeFrom: Option<int>,
    timeTo: Option<int>,
    services: seq<string>,
    events: seq<string>,
    levels: seq<LogLevel>,
    userId: Option<int>,
    chatId: Option<int>,
    messageContains: string,
    limit: int,
    offset: int,
    sortBy: string,
    sortOrder: string)

  /** The filter with every field at its zero value. */
  const EmptyFilter := LogFilter(None, None, [], [], [], None, None, "", 0, 0, "", "")

  /** When both bounds are set, `to` does not precede `from` (equal bounds are fine). */
  predicate TimeRangeOrdered(f: LogFilter)
  {
    !(f.timeFrom.Some? && f.timeTo.Some? && f.timeTo.value < f.timeFrom.value)
  }

  datatype TimeRange = TimeRange(from: int, to: int)

  datatype LogStats = LogStats(
    totalCount: int,
    countByLevel: map<LogLevel, int>,
    countByService: map<string, int>,
    countByEvent: map<string, int>,
    timeRange: TimeRange)

  /** The operations of the repository contract. */
  datatype RepoOp = StoreOp | GetByIdOp | QueryOp | CountOp | GetStatsOp | DeleteOp

  /** One invocation of the repository, with its argument. */
  datatype RepoCall =
    | StoreCall(entry: LogEntry)
    | GetByIdCall(id: string)
    | QueryCall(filter: LogFilter)
    | CountCall(filter: LogFilter)
    | GetStatsCall(filter: LogFilter)
    | DeleteCall(filter: LogFilter)
}
