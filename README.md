# Shared logging service: a verified Dafny model

The shared logging service accepts structured log entries from other
services over HTTP, stores them, raises an alert for ERROR and CRITICAL
entries, and answers filtered, paginated queries and per-level,
per-service and per-event statistics. A small client library builds the
JSON payloads that services post to it.

This project models, in Dafny:

- the **log entry** (`log_entry.dfy`): the five severity levels, their names and priorities, the entry's validity rule and the alert trigger;
- the **three use cases**:
  - create-log (`log_event_usecase.dfy`): validate the request, build the entry from the id generator and the clock, re-validate, store, then try an alert;
  - query-logs (`query_logs_usecase.dfy`): validate the filter, apply defaults, call `Query` then `Count`, compute `hasMore`;
  - get-stats (`get_log_stats_usecase.dfy`): check only the time order, then delegate;
- the **HTTP boundary** (`handlers.dfy`): the level parser, the mapping from errors to statuses, the assembly of a filter from the query string, and the method and level guards of the three endpoints;
- the **client library** (`client.dfy`): the metadata merge, the checks before and after the post, and the payload of every convenience method;
- the **in-memory repository**, alert service and id generator of the integration tests (`memory_repository.dfy`, `collaborators.dfy`), the concrete collaborators the tests wire the use cases with, and end-to-end flows through the whole stack wired as those tests wire it (`integration_flows.dfy`).

Collaborators are classes whose fields the methods update. Ghost fields record the calls made on them:
- `LogRepository.calls`;
- `AlertService.attempts`;
- `FixedClock.readCount`.

The repository has one field the test double lacks: `faults`, a map from repository operation to the error that operation returns. With `faults == map[]` the class is exactly the test double. A non-empty map stands for a backend that is down (`StorageUnavailable`, say), which is how the use cases' error propagation is stated.

Each use case's `Execute` is specified by a two-state predicate `Executed(req, r)`. It relates the result and the collaborators' states before and after the call. The handlers reuse the same predicate.

Further modelling choices:
- Timestamps are integers, and 0 is Go's zero time.
- A nil-able field (`*int64`, `*time.Time`) is an `Option`.
- A nil map is the empty map.
- Go's `strings.TrimSpace` is modelled over the whitespace set of `unicode.IsSpace`.
- `strconv` and RFC 3339 parsing are function parameters `parseInt` and `parseTime`, which return `None` on malformed text.

## Model

| member | source | states |
|---|---|---|
| Entities.LevelString | domain/entities/log_entry.go:21-36 | Levels 1..5 are named DEBUG, INFO, WARNING, ERROR and CRITICAL; the name is "UNKNOWN" exactly when the level is outside 1..5 |
| Entities.LevelStringInjective | domain/entities/log_entry.go:21-36 | Distinct valid levels have distinct names |
| Entities.TrimSpaceEmptyIffBlank | domain/entities/log_entry.go:57-84 | Trimming leaves the empty string exactly when every character is white space |
| Entities.IsValidCharacterized | domain/entities/log_entry.go:57-84 | An entry is valid iff id, service, event and message are non-blank, the level lies in 1..5 and the timestamp is set |
| Entities.IsValidIgnoresOptionalFields | domain/entities/log_entry.go:57-84 | Changing user id, chat id or metadata never changes validity |
| Entities.GetPriority | domain/entities/log_entry.go:117-132 | Priority lies in 0..5, equals the level for a valid level and is 0 otherwise |
| Entities.PriorityMonotone | domain/entities/log_entry.go:117-132 | Priority is monotone in level order over valid levels |
| Entities.ShouldAlert | domain/entities/log_entry.go:135-137 | An entry alerts iff its priority is at least 4 (ERROR or CRITICAL), which implies a valid level |
| Decimal.ParseNatToString | tests/integration/integration_test.go:233-236 | The decimal text of a counter is non-empty, all digits, and reads back as the counter |
| Decimal.NatToStringInjective | tests/integration/integration_test.go:233-236 | Different numbers print differently |
| Collaborators.IdForInjective | tests/integration/integration_test.go:233-236 | Two calls of the generator never produce the same id |
| Collaborators.IdForNotBlank | tests/integration/integration_test.go:233-236 | A generated id always passes the entry's non-blank id check |
| Collaborators.IdGenerator.constructor | application/usecases/log_event_usecase_test.go:92-101 | A scripted generator keeps its script and starts at call 0 |
| Collaborators.IdGenerator.Counting | tests/integration/integration_test.go:229-231 | The integration tests' generator: its script is "log-" followed by the call number, and it starts at 0 |
| Collaborators.IdGenerator.Generate | tests/integration/integration_test.go:233-236 | Increments the call counter and returns the script's id for the new count ("log-" followed by it for the counting generator) |
| Collaborators.AlertService.constructor | tests/integration/integration_test.go:197-202 | A new alert service has sent nothing |
| Collaborators.AlertService.SendAlert | tests/integration/integration_test.go:204-210 | A healthy service records the entry and succeeds; an unhealthy one returns AlertServiceUnavailable and records nothing |
| Collaborators.AlertService.SendBatchAlert | tests/integration/integration_test.go:212-218 | A healthy service appends all entries in order; an unhealthy one fails and changes nothing |
| Collaborators.FixedClock.constructor | tests/integration/integration_test.go:243-247 | The clock is fixed at the given instant |
| Collaborators.FixedClock.Now | tests/integration/integration_test.go:249-251 | Always returns the fixed instant |
| MemoryRepository.SelectMembers | tests/integration/integration_test.go:51-58 | The selected entries are exactly the stored entries on the requested side of the filter |
| MemoryRepository.SelectPartition | tests/integration/integration_test.go:107-121 | Every stored entry is either deleted or kept, never both |
| MemoryRepository.SelectNoneLeft | tests/integration/integration_test.go:107-121 | After deleting by a filter, no remaining entry matches it, so Count gives 0 |
| MemoryRepository.SelectKeepsAllMatching | tests/integration/integration_test.go:123-189 | A filter every entry matches keeps them all, in order |
| MemoryRepository.Page | tests/integration/integration_test.go:61-74 | The page is the slice from min(offset, n) to min(offset + limit, n), or to n when limit is 0, and never longer than a positive limit |
| MemoryRepository.StatsTotals | tests/integration/integration_test.go:87-105 | The total and each of the by-level, by-service and by-event maps sum to the number of matching entries |
| MemoryRepository.StatsLevelKeys | tests/integration/integration_test.go:87-105 | The by-level map has a key exactly for each level that occurs among the matching entries |
| MemoryRepository.ScanFor | tests/integration/integration_test.go:125-136 | The `found` scan reports true iff the value occurs in the list |
| MemoryRepository.MatchesFilter | tests/integration/integration_test.go:123-189 | Agrees with the match predicate: non-empty match-any sets, inclusive time bounds, equal user and chat ids; the message substring is ignored |
| MemoryRepository.LogRepository.constructor | tests/integration/integration_test.go:27-32 | A new repository is empty and has been called by no one |
| MemoryRepository.LogRepository.Store | tests/integration/integration_test.go:34-40 | An invalid entry gives InvalidLogEntry and leaves the list unchanged; a valid one is appended at the end |
| MemoryRepository.LogRepository.GetById | tests/integration/integration_test.go:42-49 | Returns the first entry with the id, or LogNotFound when no entry has it |
| MemoryRepository.LogRepository.Query | tests/integration/integration_test.go:51-75 | Returns the page of the matching entries in insertion order; the list is unchanged |
| MemoryRepository.LogRepository.Count | tests/integration/integration_test.go:77-85 | Returns the number of matching entries |
| MemoryRepository.LogRepository.GetStats | tests/integration/integration_test.go:87-105 | Returns the statistics of the matching entries |
| MemoryRepository.LogRepository.Delete | tests/integration/integration_test.go:107-121 | Returns the number of matching entries and keeps exactly the non-matching ones in their order |
| LogEventUseCases.ValidateRequest | application/usecases/log_event_usecase.go:83-101 | Passes iff the level is one of the five and service, event and message are not blank; a rejection always carries InvalidLogEntry |
| LogEventUseCases.RequestCheckMatchesEntryRule | application/usecases/log_event_usecase.go:43-58 | The built entry is valid iff the request passed the check and the id is non-blank and the time is set |
| LogEventUseCases.GeneratedEntryValid | application/usecases/log_event_usecase.go:43-58 | With the counting generator, an accepted request fails re-validation only on a zero clock |
| LogEventUseCases.LogEventUseCase.constructor | application/usecases/log_event_usecase.go:21-33 | Wires the four collaborators |
| LogEventUseCases.LogEventUseCase.Execute | application/usecases/log_event_usecase.go:36-80 | A bad request is refused before any collaborator is touched. A bad built entry is never stored. A store error is returned with no alert attempted. On success the entry (request fields verbatim) is appended, one alert is attempted iff it is ERROR/CRITICAL, and alertSent is true iff that alert was delivered |
| QueryLogsUseCases.ValidateFilter | application/usecases/query_logs_usecase.go:55-78 | Passes iff 0 <= limit <= 1000, offset >= 0 and the time bounds are ordered (equal allowed); a rejection is InvalidFilter |
| QueryLogsUseCases.ApplyDefaults | application/usecases/query_logs_usecase.go:81-97 | Limit 0 becomes 100, empty sort field "timestamp", empty order "desc"; set values and all other fields are kept |
| QueryLogsUseCases.ApplyDefaultsIdempotent | application/usecases/query_logs_usecase.go:81-97 | Applying the defaults twice equals applying them once |
| QueryLogsUseCases.DefaultedFilterInRange | application/usecases/query_logs_usecase.go:55-97 | For a filter that passed, the defaulted limit lies in 1..1000 and the defaulted filter still passes |
| QueryLogsUseCases.HasMoreMeansEntriesBeyondPage | application/usecases/query_logs_usecase.go:45 | Against the in-memory repository, hasMore holds iff matching entries lie beyond the page |
| QueryLogsUseCases.HasMoreExamples | application/usecases/query_logs_usecase_test.go:97-118 | Offset 0, one entry returned of 10 gives true; of 1 gives false |
| QueryLogsUseCases.QueryLogsUseCase.constructor | application/usecases/query_logs_usecase.go:16-20 | Wires the repository |
| QueryLogsUseCases.QueryLogsUseCase.Execute | application/usecases/query_logs_usecase.go:23-52 | A rejected filter reaches neither Query nor Count. Otherwise Query then Count both receive the defaulted filter. A Query error stops before Count, and errors are returned unchanged. The result is the page, the total match count and hasMore |
| GetLogStatsUseCases.ValidateStatsFilter | application/usecases/get_log_stats_usecase.go:41-50 | Passes iff the time bounds are ordered; a rejection is InvalidFilter |
| GetLogStatsUseCases.StatsCheckIgnoresPaging | application/usecases/get_log_stats_usecase.go:41-50 | Limit, offset and sort fields never affect the check |
| GetLogStatsUseCases.StatsCheckWeakerThanQueryCheck | application/usecases/get_log_stats_usecase.go:41-50 | Every filter the query check passes also passes here, and a negative limit passes only here |
| GetLogStatsUseCases.GetLogStatsUseCase.constructor | application/usecases/get_log_stats_usecase.go:16-20 | Wires the repository |
| GetLogStatsUseCases.GetLogStatsUseCase.Execute | application/usecases/get_log_stats_usecase.go:23-38 | A rejected filter never reaches GetStats; otherwise GetStats gets the filter unmodified and its statistics or error are returned verbatim |
| HttpHandlers.ParseLogLevel | infrastructure/http/handlers.go:164-179 | Accepts exactly DEBUG, INFO, WARNING, WARN, ERROR, CRITICAL, CRIT after upper-casing, always giving a valid level; anything else is InvalidLogLevel |
| HttpHandlers.ParseLogLevelIgnoresCase | infrastructure/http/handlers.go:165 | Parsing a string and its upper case give the same result |
| HttpHandlers.LevelNameRoundTrip | infrastructure/http/handlers.go:164-179 | Every valid level's name parses back to that level |
| HttpHandlers.ParseLogLevelExamples | infrastructure/http/handlers_test.go:530-540 | The aliases, lower and mixed case parse; "INVALID" and "" are rejected |
| HttpHandlers.HandleUseCaseError | infrastructure/http/handlers.go:282-297 | InvalidLogEntry and InvalidFilter give 400, StorageUnavailable 503, Unauthorized 401, RateLimitExceeded 429, and every other error 500; the body has success false and the fixed message of each case ("Invalid log entry", "Invalid filter parameters", "Storage unavailable", "Unauthorized access", "Rate limit exceeded", "Internal server error") |
| HttpHandlers.EmptyQueryGivesEmptyFilter | infrastructure/http/handlers.go:182-279 | An empty query string parses without error to the all-zero filter |
| HttpHandlers.OneBadLevelFailsParse | infrastructure/http/handlers.go:215-225 | One unknown level anywhere among the level values fails the whole parse |
| HttpHandlers.AssembledLevelsValid | infrastructure/http/handlers.go:215-225 | After a successful parse the levels are valid and in query order |
| HttpHandlers.ParseLevels | infrastructure/http/handlers.go:215-225 | Succeeds iff every value parses, giving each value's level in order; otherwise "Invalid level parameter" |
| HttpHandlers.ParseQueryFilters | infrastructure/http/handlers.go:182-279 | Fails iff some parameter is malformed, with the message of the first one in checking order; otherwise gives the filter the parameters describe, with zero values for absent ones and no range check |
| HttpHandlers.CreatedResponse | infrastructure/http/handlers.go:93-100 | A use-case success gives 201 with the response; an error gives its mapped error response |
| HttpHandlers.LogsResponse | infrastructure/http/handlers.go:123-130 | A success gives 200 with the page; an error gives its mapped error response |
| HttpHandlers.StatsResponse | infrastructure/http/handlers.go:153-160 | A success gives 200 with the statistics; an error gives its mapped error response |
| HttpHandlers.AcceptedLevelPassesUseCaseCheck | infrastructure/http/handlers.go:74-90 | With a level the handler accepted, the use case's check fails only on a blank text field |
| HttpHandlers.LogsHandler.constructor | infrastructure/http/handlers.go:39-49 | Wires the three use cases |
| HttpHandlers.LogsHandler.CreateLog | infrastructure/http/handlers.go:52-101 | A non-POST request gives 405, bad JSON 400, and a bad level 400, each before the use case is called and with nothing changed. Otherwise the use case runs on the request built from the body, and its result maps to the response |
| HttpHandlers.LogsHandler.GetLogs | infrastructure/http/handlers.go:104-131 | A non-GET request gives 405 and a malformed parameter 400 with its message, both with the repository unchanged. Otherwise the query use case runs on the assembled filter |
| HttpHandlers.LogsHandler.GetStats | infrastructure/http/handlers.go:134-161 | Like GetLogs, but runs the statistics use case on the assembled filter |
| LoggingClient.StatusOutcome | client.go:64-66 | A response is accepted iff its status is in [200, 300); otherwise the error names the status |
| LoggingClient.MergeMetadata | client.go:72-84 | The result holds every key of both maps; additional values win, base values fill the rest |
| LoggingClient.Milliseconds | events.go:68 | Nanoseconds to milliseconds, truncating toward zero for either sign |
| LoggingClient.Client.SendLog | client.go:39-50 | An empty base URL fails before sending; otherwise the payload carries the arguments and always the client's service name |
| LoggingClient.Client.SendOutcome | client.go:39-69 | The send succeeds iff the pre-flight check passed and the status is 2xx |
| LoggingClient.Client.ServiceStart | events.go:9-14 | INFO, "service_start", metadata {version} |
| LoggingClient.Client.Health | events.go:25-31 | INFO, the client's service name, "health_check"; metadata is {status} with the caller's map merged over it |
| LoggingClient.Client.Error | events.go:34-40 | ERROR, the client's service name, "error_event"; metadata is {error: the error text} with the caller's map merged over it |
| LoggingClient.Client.Warning | events.go:43-45 | WARNING, "warning_event", the caller's message and metadata |
| LoggingClient.Client.Info | events.go:48-50 | INFO with the caller's event |
| LoggingClient.Client.Critical | events.go:53-55 | CRITICAL, "critical_event" |
| LoggingClient.Client.Debug | events.go:58-60 | DEBUG, "debug_event" |
| LoggingClient.Client.HTTPRequest | events.go:63-73 | INFO, the client's service name, "http_request", message "METHOD PATH - STATUS"; the caller's map over base keys method, path, status_code and duration_ms, each holding its argument (the duration in whole milliseconds) unless overridden |
| LoggingClient.Client.ExternalAPI | events.go:76-86 | INFO, the client's service name, "external_api", message "API call to NAME"; the caller's map over base keys api_name, endpoint, status_code and duration_ms, each holding its argument unless overridden |
| LoggingClient.Client.ServiceCommunication | events.go:89-105 | ERROR iff the call failed, otherwise INFO; the client's service name; event "service_communication"; message "Communication with TARGET: OPERATION"; the caller's map over base keys target_service, operation, success and duration_ms, each holding its argument unless overridden |
| LoggingClient.HTTPRequestMessageEndsWithStatus | events.go:71 | The status at the end of the request message reads back as the status code |
| LoggingClient.HTTPRequestMessageExample | events_test.go:92 | POST /api/test with 201 gives "POST /api/test - 201" |
| LoggingClient.MergeWithEmpty | events_test.go:245-271 | The merge method given an empty (nil) map on either side returns the other side |
| LoggingClient.MergeExample | events_test.go:217-243 | The merge method on the test's maps: the shared key takes the additional value, and the other keys are kept |
| LoggingClient.EventPayloadExamples | events_test.go:74-215 | The event tests' payloads: duration_ms 150 and 1200, api_name "telegram", success true with INFO and false with ERROR, and the caller's keys kept |
| IntegrationFlows.SentLevelsAccepted | infrastructure/http/handlers.go:164-179 | Every level name the client sends is accepted by the service and printed back unchanged |
| IntegrationFlows.CreateLogFlow | tests/integration/integration_test.go:254-380 | The first POST against a fresh stack gives 201 with "log-1" and the clock's time, stores exactly that entry, and alerts iff ERROR/CRITICAL and the alert service is healthy; an unhealthy one does not turn it into an error |
| IntegrationFlows.ScriptedEntryFlow | application/usecases/log_event_usecase.go:43-58 | With a scripted id generator and clock, a blank first id or an unset time gives InvalidLogEntry with nothing stored or alerted; otherwise the stored entry carries the scripted id and time |
| IntegrationFlows.BlankServiceFlow | tests/integration/integration_test.go:637-645 | A body with a blank service gives 400 "Invalid log entry" and stores nothing |
| IntegrationFlows.QueryAllFlow | tests/integration/integration_test.go:383-517 | GET /logs with no parameters over at most 100 stored entries returns them all in order, the full count, and no more pages |
| IntegrationFlows.StatsFlow | tests/integration/integration_test.go:520-592 | GET /logs/stats with no parameters returns a total equal to the number stored, with each breakdown summing to it |

## Left out

- JSON encoding and decoding are not modelled: `LogEntry.ToJSON`, request decoding, and `writeJSONResponse` with its encode-failure fallback. A body that fails to decode is `None`; responses are datatypes.
- The HTTP transport is not modelled: the client's `http.Client`, its 10-second timeout, and the marshal and network errors of `sendLog`. The status the service answers with is a parameter of `SendOutcome`. Response headers and the `ResponseWriter` are left out too.
- Routing is not modelled: the handlers do not fix their paths. The client posts to base URL + "/log".
- `HealthHandler.Check` is left out: it reads the wall clock.
- `strconv.Atoi`, `strconv.ParseInt` and `time.Parse` (RFC 3339) are function parameters. One `parseInt` parameter stands for both integer parsers, so the model does not distinguish Atoi's platform int from int64.
- `ServiceStop` is left out: its metadata is a floating-point number of seconds.
- `context.Context` is not modelled, and neither is concurrent use of the shared repository or alert service. The source has no concurrency logic. The query path's two repository calls are treated as atomic.
- Integer widths are not modelled: counts, ids and limits are unbounded integers with no int64 overflow.
- Time is integer instants: `Before` and `After` become `<` and `>`, and `IsZero` becomes `== 0`.
- Metadata values are text, number, flag or null. Nested maps and arrays are not represented.
- Sorting is not modelled. `sort_by` and `sort_order` are carried and defaulted, but the only repository never sorts. `message_contains` is carried and ignored, as the in-memory repository ignores it.
- The scripted repository doubles of the use-case tests are covered by the repository's `faults` map, for failing operations only. Their scripted successes are not: those can return a Query page and a Count that disagree (one entry and a count of 10), while the in-memory repository always answers both from the same list. The scripted id generator and clock are modelled (`IdGenerator` takes a script; `FixedClock` takes any instant, zero included). A real storage backend is not part of this model.
- MemoryRepository.Page and LogRepository.Query: require a non-negative offset and limit. The in-memory repository slices `result[start:end]`, which panics in Go for a negative offset or a negative non-zero limit; the model leaves those inputs out instead of modelling the panic. The query use case never passes them, because its validation rejects both.
- The alert service's `IsHealthy` is the readable field `healthy`. No core operation calls it.
- HttpHandlers.ParseLogLevel: upper-cases ASCII letters only. Go's `strings.ToUpper` also maps a few non-ASCII letters onto ASCII ones: dotless ı (U+0131) onto I, and long ſ (U+017F) onto S. So "ınfo" is accepted by the service but rejected by the model.
