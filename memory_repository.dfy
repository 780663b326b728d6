/**
 * The in-memory repository of the integration tests: a list of entries that
 * Store appends to and Delete filters, with filtered query, count and
 * per-level / per-service / per-event statistics.
 */
module MemoryRepository {
  import opened Wrappers
  import opened DomainErrors
  import opened Entities
  import opened Interfaces

  // ---------------------------------------------------------------------
  // Filter semantics
  // ---------------------------------------------------------------------

  /**
   * An entry matches a filter when it is in every non-empty match-any set,
   * lies within the inclusive time bounds, and carries the requested user
   * and chat ids. The message substring and the sort fields are not used.
   */
  predicate Matches(e: LogEntry, f: LogFilter)
  {
    && (f.services == [] || e.service in f.services)
    && (f.events == [] || e.event in f.events)
    && (f.levels == [] || e.level in f.levels)
    && (f.timeFrom.None? || f.timeFrom.value <= e.timestamp)
    && (f.timeTo.None? || e.timestamp <= f.timeTo.value)
    && (f.userId.None? || e.userId == f.userId)
    && (f.chatId.None? || e.chatId == f.chatId)
  }

  /** The entries of `s` whose match against `f` is `keep`, in their original order. */
  function Select(s: seq<LogEntry>, f: LogFilter, keep: bool): seq<LogEntry>
  {
    if s == [] then []
    else Select(s[..|s| - 1], f, keep) + (if Matches(s[|s| - 1], f) == keep then [s[|s| - 1]] else [])
  }

  /** Select keeps exactly the entries of `s` on the requested side of the filter. */
  lemma {:induction false} SelectMembers(s: seq<LogEntry>, f: LogFilter, keep: bool)
    ensures forall x :: x in Select(s, f, keep) <==> x in s && Matches(x, f) == keep
  {
    if s != [] {
      SelectMembers(s[..|s| - 1], f, keep);
      assert s == s[..|s| - 1] + [s[|s| - 1]];
    }
  }

  /** Every entry lands on exactly one side of a filter. */
  lemma {:induction false} SelectPartition(s: seq<LogEntry>, f: LogFilter)
    ensures |Select(s, f, true)| + |Select(s, f, false)| == |s|
  {
    if s != [] {
      SelectPartition(s[..|s| - 1], f);
    }
  }

  /** Once the matching entries are removed, none match any more. */
  lemma {:induction false} SelectNoneLeft(s: seq<LogEntry>, f: LogFilter)
    ensures Select(Select(s, f, false), f, true) == []
  {
    if s != [] {
      var p := s[..|s| - 1];
      SelectNoneLeft(p, f);
      var x := s[|s| - 1];
      if !Matches(x, f) {
        var t := Select(p, f, false) + [x];
        assert Select(s, f, false) == t;
        assert t[..|t| - 1] == Select(p, f, false);
      } else {
        assert Select(s, f, false) == Select(p, f, false);
      }
    }
  }

  /** A filter every entry matches keeps the whole sequence. */
  lemma {:induction false} SelectKeepsAllMatching(s: seq<LogEntry>, f: LogFilter)
    requires forall i | 0 <= i < |s| :: Matches(s[i], f)
    ensures Select(s, f, true) == s
  {
    if s != [] {
      var p := s[..|s| - 1];
      forall i | 0 <= i < |p|
        ensures Matches(p[i], f)
      {
        assert p[i] == s[i];
      }
      SelectKeepsAllMatching(p, f);
      assert Matches(s[|s| - 1], f);
      assert s == p + [s[|s| - 1]];
    }
  }

  /** Extending the scanned prefix by one entry extends the selection by at most that entry. */
  lemma SelectStep(s: seq<LogEntry>, i: nat, f: LogFilter, keep: bool)
    requires i < |s|
    ensures Select(s[..i + 1], f, keep) == Select(s[..i], f, keep) + (if Matches(s[i], f) == keep then [s[i]] else [])
  {
    assert s[..i + 1][..i] == s[..i];
  }

  function Min(a: int, b: int): int
  {
    if a <= b then a else b
  }

  /**
   * Offset/limit slicing of a result list. A zero limit means "to the end".
   * Negative values make the Go slice expression panic, hence the requires.
   */
  function Page(s: seq<LogEntry>, offset: int, limit: int): (r: seq<LogEntry>)
    requires offset >= 0 && limit >= 0
    ensures limit > 0 ==> r == s[Min(offset, |s|)..Min(offset + limit, |s|)]
    ensures limit == 0 ==> r == s[Min(offset, |s|)..]
    ensures limit > 0 ==> |r| <= limit
  {
    var start := if offset > |s| then |s| else offset;
    var end := if limit == 0 then |s| else if start + limit > |s| then |s| else start + limit;
    s[start..end]
  }

  // ---------------------------------------------------------------------
  // Statistics
  // ---------------------------------------------------------------------

  /** Go's `m[k]++` on a count map: an absent key counts as zero. */
  function Increment<K>(m: map<K, int>, k: K): map<K, int>
  {
    m[k := (if k in m then m[k] else 0) + 1]
  }

  const NoStats := LogStats(0, map[], map[], map[], TimeRange(0, 0))

  /** One matching entry counted into the statistics. */
  function CountEntry(st: LogStats, e: LogEntry): LogStats
  {
    st.(totalCount := st.totalCount + 1,
        countByLevel := Increment(st.countByLevel, e.level),
        countByService := Increment(st.countByService, e.service),
        countByEvent := Increment(st.countByEvent, e.event))
  }

  /** The statistics of a list of (already filtered) entries, counted left to right. */
  function StatsOf(s: seq<LogEntry>): LogStats
  {
    if s == [] then NoStats else CountEntry(StatsOf(s[..|s| - 1]), s[|s| - 1])
  }

  lemma StatsOfSnoc(s: seq<LogEntry>, e: LogEntry)
    ensures StatsOf(s + [e]) == CountEntry(StatsOf(s), e)
  {
    assert (s + [e])[..|s|] == s;
  }

  /** Some key of a non-empty map. */
  ghost function AnyKey<K>(m: map<K, int>): (k: K)
    requires |m| > 0
    ensures k in m
  {
    assert m.Keys != {} by { assert |m.Keys| == |m|; }
    var k :| k in m; k
  }

  /** The sum of the values of a count map. */
  ghost function MapSum<K>(m: map<K, int>): int
    decreases |m|
  {
    if |m| == 0 then 0
    else
      var k := AnyKey(m);
      assert |m - {k}| < |m| by { assert (m - {k}).Keys == m.Keys - {k}; }
      m[k] + MapSum(m - {k})
  }

  /** MapSum does not depend on which key is taken out first. */
  lemma {:induction false} MapSumRemove<K>(m: map<K, int>, k: K)
    requires k in m
    ensures MapSum(m) == m[k] + MapSum(m - {k})
    decreases |m|
  {
    var j := AnyKey(m);
    if j != k {
      assert (m - {j}).Keys == m.Keys - {j};
      assert (m - {k}).Keys == m.Keys - {k};
      MapSumRemove(m - {j}, k);
      MapSumRemove(m - {k}, j);
      assert m - {j} - {k} == m - {k} - {j};
    }
  }

  /** Counting one more occurrence adds one to the total of a count map. */
  lemma IncrementSum<K>(m: map<K, int>, k: K)
    ensures MapSum(Increment(m, k)) == MapSum(m) + 1
  {
    var m' := Increment(m, k);
    MapSumRemove(m', k);
    if k in m {
      MapSumRemove(m, k);
      assert m' - {k} == m - {k};
    } else {
      assert m' - {k} == m;
    }
  }

  /** Each breakdown of the statistics adds up to the total, which is the number of entries. */
  lemma {:induction false} StatsTotals(s: seq<LogEntry>)
    ensures StatsOf(s).totalCount == |s|
    ensures MapSum(StatsOf(s).countByLevel) == |s|
    ensures MapSum(StatsOf(s).countByService) == |s|
    ensures MapSum(StatsOf(s).countByEvent) == |s|
  {
    if s != [] {
      var st := StatsOf(s[..|s| - 1]);
      var e := s[|s| - 1];
      assert StatsOf(s) == CountEntry(st, e);
      StatsTotals(s[..|s| - 1]);
      IncrementSum(st.countByLevel, e.level);
      IncrementSum(st.countByService, e.service);
      IncrementSum(st.countByEvent, e.event);
    }
  }

  /** A level appears in the breakdown exactly when some counted entry has it. */
  lemma {:induction false} StatsLevelKeys(s: seq<LogEntry>)
    ensures forall l :: l in StatsOf(s).countByLevel <==> exists i | 0 <= i < |s| :: s[i].level == l
  {
    if s != [] {
      var p := s[..|s| - 1];
      StatsLevelKeys(p);
      forall l
        ensures l in StatsOf(s).countByLevel <==> exists i | 0 <= i < |s| :: s[i].level == l
      {
        if exists i | 0 <= i < |p| :: p[i].level == l {
          var i :| 0 <= i < |p| && p[i].level == l;
          assert s[i].level == l;
        }
        if exists i | 0 <= i < |s| :: s[i].level == l {
          var i :| 0 <= i < |s| && s[i].level == l;
          if i < |p| { assert p[i].level == l; }
        }
      }
    }
  }

  // ---------------------------------------------------------------------
  // Scanning
  // ---------------------------------------------------------------------

  /** The `found` loop the filter check runs over each match-any set. */
  method ScanFor<T(==)>(xs: seq<T>, x: T) returns (found: bool)
    ensures found <==> x in xs
  {
    found := false;
    for i := 0 to |xs|
      invariant x !in xs[..i]
    {
      if xs[i] == x {
        found := true;
        break;
      }
    }
  }

  /** The filter check, field by field with early rejection. */
  method MatchesFilter(e: LogEntry, f: LogFilter) returns (b: bool)
    ensures b == Matches(e, f)
  {
    if |f.services| > 0 {
      var found := ScanFor(f.services, e.service);
      if !found { return false; }
    }
    if |f.events| > 0 {
      var found := ScanFor(f.events, e.event);
      if !found { return false; }
    }
    if |f.levels| > 0 {
      var found := ScanFor(f.levels, e.level);
      if !found { return false; }
    }
    if f.timeFrom.Some? && e.timestamp < f.timeFrom.value { return false; }
    if f.timeTo.Some? && e.timestamp > f.timeTo.value { return false; }
    if f.userId.Some? {
      if e.userId.None? || e.userId.value != f.userId.value { return false; }
    }
    if f.chatId.Some? {
      if e.chatId.None? || e.chatId.value != f.chatId.value { return false; }
    }
    return true;
  }

  /** `i` is the position of the first entry with identifier `id`. */
  ghost predicate FirstWithId(s: seq<LogEntry>, id: string, i: int)
  {
    0 <= i < |s| && s[i].id == id && forall j | 0 <= j < i :: s[j].id != id
  }

  // ---------------------------------------------------------------------
  // The repository
  // ---------------------------------------------------------------------

  class LogRepository {
    /** The stored entries, oldest first. */
    var logs: seq<LogEntry>
    /**
     * Operations the backend fails, with the error each returns. The
     * integration double never fails (`faults == map[]`); a non-empty map
     * stands for an unavailable storage backend.
     */
    const faults: map<RepoOp, DomainError>
    /** Every call made on this repository, in order. */
    ghost var calls: seq<RepoCall>

    constructor (faults: map<RepoOp, DomainError>)
      ensures logs == [] && this.faults == faults && calls == []
    {
      logs := [];
      this.faults := faults;
      calls := [];
    }

    /** Appends a valid entry; an invalid one is refused and nothing changes. */
    method Store(e: LogEntry) returns (r: Outcome)
      modifies this`logs, this`calls
      ensures calls == old(calls) + [StoreCall(e)]
      ensures StoreOp in faults ==> r == Fail(faults[StoreOp]) && logs == old(logs)
      ensures StoreOp !in faults && !IsValid(e) ==> r == Fail(InvalidLogEntry) && logs == old(logs)
      ensures StoreOp !in faults && IsValid(e) ==> r == Pass && logs == old(logs) + [e]
    {
      calls := calls + [StoreCall(e)];
      if StoreOp in faults { return Fail(faults[StoreOp]); }
      if !IsValid(e) { return Fail(InvalidLogEntry); }
      logs := logs + [e];
      return Pass;
    }

    /** The first entry carrying `id`, or LogNotFound. */
    method GetById(id: string) returns (r: Result<LogEntry>)
      modifies this`calls
      ensures calls == old(calls) + [GetByIdCall(id)]
      ensures GetByIdOp in faults ==> r == Err(faults[GetByIdOp])
      ensures GetByIdOp !in faults && r.Ok? ==> exists i :: FirstWithId(logs, id, i) && logs[i] == r.value
      ensures GetByIdOp !in faults && r.Err? ==> r.error == LogNotFound && forall i | 0 <= i < |logs| :: logs[i].id != id
    {
      calls := calls + [GetByIdCall(id)];
      if GetByIdOp in faults { return Err(faults[GetByIdOp]); }
      for i := 0 to |logs|
        invariant forall j | 0 <= j < i :: logs[j].id != id
      {
        if logs[i].id == id {
          assert FirstWithId(logs, id, i);
          return Ok(logs[i]);
        }
      }
      return Err(LogNotFound);
    }

    /** The matching entries in insertion order, cut to the filter's page. */
    method Query(f: LogFilter) returns (r: Result<seq<LogEntry>>)
      requires f.offset >= 0 && f.limit >= 0
      modifies this`calls
      ensures calls == old(calls) + [QueryCall(f)]
      ensures QueryOp in faults ==> r == Err(faults[QueryOp])
      ensures QueryOp !in faults ==> r == Ok(Page(Select(logs, f, true), f.offset, f.limit))
    {
      calls := calls + [QueryCall(f)];
      if QueryOp in faults { return Err(faults[QueryOp]); }
      var result := [];
      for i := 0 to |logs|
        invariant result == Select(logs[..i], f, true)
        modifies {}
      {
        SelectStep(logs, i, f, true);
        var m := MatchesFilter(logs[i], f);
        if m { result := result + [logs[i]]; }
      }
      assert logs[..|logs|] == logs;
      var start := f.offset;
      if start > |result| { start := |result|; }
      var end := start + f.limit;
      if f.limit == 0 { end := |result|; }
      if end > |result| { end := |result|; }
      return Ok(result[start..end]);
    }

    /** The number of matching entries. */
    method Count(f: LogFilter) returns (r: Result<int>)
      modifies this`calls
      ensures calls == old(calls) + [CountCall(f)]
      ensures CountOp in faults ==> r == Err(faults[CountOp])
      ensures CountOp !in faults ==> r == Ok(|Select(logs, f, true)|)
    {
      calls := calls + [CountCall(f)];
      if CountOp in faults { return Err(faults[CountOp]); }
      var count := 0;
      for i := 0 to |logs|
        invariant count == |Select(logs[..i], f, true)|
        modifies {}
      {
        SelectStep(logs, i, f, true);
        var m := MatchesFilter(logs[i], f);
        if m { count := count + 1; }
      }
      assert logs[..|logs|] == logs;
      return Ok(count);
    }

    /** Counts of the matching entries: in total and by level, service and event. */
    method GetStats(f: LogFilter) returns (r: Result<LogStats>)
      modifies this`calls
      ensures calls == old(calls) + [GetStatsCall(f)]
      ensures GetStatsOp in faults ==> r == Err(faults[GetStatsOp])
      ensures GetStatsOp !in faults ==> r == Ok(StatsOf(Select(logs, f, true)))
    {
      calls := calls + [GetStatsCall(f)];
      if GetStatsOp in faults { return Err(faults[GetStatsOp]); }
      var stats := NoStats;
      for i := 0 to |logs|
        invariant stats == StatsOf(Select(logs[..i], f, true))
        modifies {}
      {
        SelectStep(logs, i, f, true);
        var e := logs[i];
        var m := MatchesFilter(e, f);
        ghost var before := Select(logs[..i], f, true);
        if m {
          StatsOfSnoc(before, e);
          stats := CountEntry(stats, e);
          assert Select(logs[..i + 1], f, true) == before + [e];
          assert stats == StatsOf(before + [e]);
        } else {
          assert Select(logs[..i + 1], f, true) == before;
        }
      }
      assert logs[..|logs|] == logs;
      return Ok(stats);
    }

    /** Removes the matching entries, keeping the others in order, and reports how many went. */
    method Delete(f: LogFilter) returns (r: Result<int>)
      modifies this`logs, this`calls
      ensures calls == old(calls) + [DeleteCall(f)]
      ensures DeleteOp in faults ==> r == Err(faults[DeleteOp]) && logs == old(logs)
      ensures DeleteOp !in faults ==> r == Ok(|Select(old(logs), f, true)|)
      ensures DeleteOp !in faults ==> logs == Select(old(logs), f, false)
    {
      calls := calls + [DeleteCall(f)];
      if DeleteOp in faults { return Err(faults[DeleteOp]); }
      var deleted := 0;
      var kept := [];
      for i := 0 to |logs|
        invariant deleted == |Select(logs[..i], f, true)|
        invariant kept == Select(logs[..i], f, false)
        modifies {}
      {
        SelectStep(logs, i, f, true);
        SelectStep(logs, i, f, false);
        var m := MatchesFilter(logs[i], f);
        if m { deleted := deleted + 1; } else { kept := kept + [logs[i]]; }
      }
      assert logs[..|logs|] == logs;
      logs := kept;
      return Ok(deleted);
    }
  }
}
