/**
 * The client library other services use to send log entries: the
 * payload each convenience method builds, the metadata merge, and the
 * checks made before and after the HTTP post. The post itself is not
 * modelled; the status code it returns is a parameter.
 */
module LoggingClient {
  import opened DomainErrors
  import opened Entities
  import opened Decimal

  /** The JSON body posted to the service; the level is still text. */
  datatype LogRequest = LogRequest(
    level: string,
    service: string,
    event: string,
    message: string,
    metadata: Metadata)

  /** The level names the convenience methods send. */
  const SentLevelNames := {"DEBUG", "INFO", "WARNING", "ERROR", "CRITICAL"}

  /** A response status counts as delivered only when it is 2xx. */
  predicate StatusAccepted(code: int)
  {
    200 <= code < 300
  }

  function StatusOutcome(code: int): (r: Outcome)
    ensures r == Pass <==> StatusAccepted(code)
    ensures r.Fail? ==> r.error == Other("logging service returned status " + IntToString(code))
  {
    if code < 200 || code >= 300 then Fail(Other("logging service returned status " + IntToString(code)))
    else Pass
  }

  /**
   * Builds a map holding every key of both inputs: a value from
   * `additional` wins over one from `base`. Neither input is changed
   * (they are values here).
   */
  method MergeMetadata(base: Metadata, additional: Metadata) returns (result: Metadata)
    ensures result.Keys == base.Keys + additional.Keys
    ensures forall k | k in additional :: result[k] == additional[k]
    ensures forall k | k in base && k !in additional :: result[k] == base[k]
    ensures result == base + additional
  {
    result := map[];
    var todo := base.Keys;
    while todo != {}
      invariant todo <= base.Keys
      invariant result.Keys == base.Keys - todo
      invariant forall k | k in result :: result[k] == base[k]
      decreases todo
    {
      var k :| k in todo;
      result := result[k := base[k]];
      todo := todo - {k};
    }
    todo := additional.Keys;
    while todo != {}
      invariant todo <= additional.Keys
      invariant result.Keys == base.Keys + (additional.Keys - todo)
      invariant forall k | k in result :: result[k] == if k in additional && k !in todo then additional[k] else base[k]
      decreases todo
    {
      var k :| k in todo;
      result := result[k := additional[k]];
      todo := todo - {k};
    }
  }

  /** Merging with an empty (nil) map on either side gives back the other side. */
  method MergeWithEmpty(m: Metadata) returns (emptyBase: Metadata, emptyAdditional: Metadata)
    ensures emptyBase == m && emptyAdditional == m
  {
    emptyBase := MergeMetadata(map[], m);
    emptyAdditional := MergeMetadata(m, map[]);
  }

  /** Go's `time.Duration.Milliseconds`: nanoseconds divided by 10^6, truncated toward zero. */
  function Milliseconds(nanos: int): (ms: int)
    ensures 0 <= nanos ==> 0 <= ms * 1000000 <= nanos < (ms + 1) * 1000000
    ensures nanos < 0 ==> (ms - 1) * 1000000 < nanos <= ms * 1000000 <= 0
  {
    if nanos >= 0 then nanos / 1000000 else -((-nanos) / 1000000)
  }

  /** A logging client: where it posts, and the service name it stamps on every entry. */
  datatype Client = Client(baseUrl: string, serviceName: string)
  {
    /** The endpoint the payload is posted to. */
    function Url(): string
    {
      baseUrl + "/log"
    }

    /**
     * The pre-flight part of sending: the payload that would be posted, or
     * the error returned without posting anything.
     */
    function SendLog(level: string, event: string, message: string, metadata: Metadata): (r: Result<LogRequest>)
      ensures r.Err? <==> baseUrl == ""
      ensures r.Err? ==> r.error == Other("logging client baseURL is empty")
      ensures r.Ok? ==> r.value == LogRequest(level, serviceName, event, message, metadata)
    {
      if baseUrl == "" then Err(Other("logging client baseURL is empty"))
      else Ok(LogRequest(level, serviceName, event, message, metadata))
    }

    /** The whole send, given the status the service answers with. */
    function SendOutcome(payload: Result<LogRequest>, status: int): (r: Outcome)
      ensures r == Pass <==> payload.Ok? && StatusAccepted(status)
    {
      if payload.Err? then Fail(payload.error) else StatusOutcome(status)
    }

    function ServiceStart(version: string, message: string): (r: Result<LogRequest>)
      ensures r.Err? <==> baseUrl == ""
      ensures r.Ok? ==> r.value == LogRequest("INFO", serviceName, "service_start", message, map["version" := Text(version)])
    {
      SendLog("INFO", "service_start", message, map["version" := Text(version)])
    }

    function Health(status: string, message: string, metadata: Metadata): (r: Result<LogRequest>)
      ensures r.Err? <==> baseUrl == ""
      ensures r.Ok? ==> r.value.level == "INFO" && r.value.service == serviceName
      ensures r.Ok? ==> r.value.event == "health_check" && r.value.message == message
      ensures r.Ok? ==> r.value.metadata.Keys == {"status"} + metadata.Keys
      ensures r.Ok? ==> r.value.metadata["status"] == if "status" in metadata then metadata["status"] else Text(status)
      ensures r.Ok? ==> forall k | k in metadata :: r.value.metadata[k] == metadata[k]
    {
      SendLog("INFO", "health_check", message, map["status" := Text(status)] + metadata)
    }

    function Error(errText: string, message: string, metadata: Metadata): (r: Result<LogRequest>)
      ensures r.Err? <==> baseUrl == ""
      ensures r.Ok? ==> r.value.level == "ERROR" && r.value.service == serviceName
      ensures r.Ok? ==> r.value.event == "error_event" && r.value.message == message
      ensures r.Ok? ==> r.value.metadata.Keys == {"error"} + metadata.Keys
      ensures r.Ok? ==> r.value.metadata["error"] == if "error" in metadata then metadata["error"] else Text(errText)
      ensures r.Ok? ==> forall k | k in metadata :: r.value.metadata[k] == metadata[k]
    {
      SendLog("ERROR", "error_event", message, map["error" := Text(errText)] + metadata)
    }

    function Warning(message: string, metadata: Metadata): (r: Result<LogRequest>)
      ensures r.Err? <==> baseUrl == ""
      ensures r.Ok? ==> r.value == LogRequest("WARNING", serviceName, "warning_event", message, metadata)
    {
      SendLog("WARNING", "warning_event", message, metadata)
    }

    function Info(event: string, message: string, metadata: Metadata): (r: Result<LogRequest>)
      ensures r.Err? <==> baseUrl == ""
      ensures r.Ok? ==> r.value == LogRequest("INFO", serviceName, event, message, metadata)
    {
      SendLog("INFO", event, message, metadata)
    }

    function Critical(message: string, metadata: Metadata): (r: Result<LogRequest>)
      ensures r.Err? <==> baseUrl == ""
      ensures r.Ok? ==> r.value == LogRequest("CRITICAL", serviceName, "critical_event", message, metadata)
    {
      SendLog("CRITICAL", "critical_event", message, metadata)
    }

    function Debug(message: string, metadata: Metadata): (r: Result<LogRequest>)
      ensures r.Err? <==> baseUrl == ""
      ensures r.Ok? ==> r.value == LogRequest("DEBUG", serviceName, "debug_event", message, metadata)
    {
      SendLog("DEBUG", "debug_event", message, metadata)
    }

    function HTTPRequest(httpMethod: string, path: string, statusCode: int, durationNanos: int, metadata: Metadata): (r: Result<LogRequest>)
      ensures r.Err? <==> baseUrl == ""
      ensures r.Ok? ==> r.value.level == "INFO" && r.value.service == serviceName && r.value.event == "http_request"
      ensures r.Ok? ==> r.value.message == httpMethod + " " + path + " - " + IntToString(statusCode)
      ensures r.Ok? ==> r.value.metadata.Keys == {"method", "path", "status_code", "duration_ms"} + metadata.Keys
      ensures r.Ok? ==> forall k | k in metadata :: r.value.metadata[k] == metadata[k]
      ensures r.Ok? && "method" !in metadata ==> r.value.metadata["method"] == Text(httpMethod)
      ensures r.Ok? && "path" !in metadata ==> r.value.metadata["path"] == Text(path)
      ensures r.Ok? && "status_code" !in metadata ==> r.value.metadata["status_code"] == Number(statusCode)
      ensures r.Ok? && "duration_ms" !in metadata ==> r.value.metadata["duration_ms"] == Number(Milliseconds(durationNanos))
    {
      var base := map["method" := Text(httpMethod), "path" := Text(path),
                      "status_code" := Number(statusCode), "duration_ms" := Number(Milliseconds(durationNanos))];
      SendLog("INFO", "http_request", httpMethod + " " + path + " - " + IntToString(statusCode), base + metadata)
    }

    function ExternalAPI(apiName: string, endpoint: string, statusCode: int, durationNanos: int, metadata: Metadata): (r: Result<LogRequest>)
      ensures r.Err? <==> baseUrl == ""
      ensures r.Ok? ==> r.value.level == "INFO" && r.value.service == serviceName && r.value.event == "external_api"
      ensures r.Ok? ==> r.value.message == "API call to " + apiName
      ensures r.Ok? ==> r.value.metadata.Keys == {"api_name", "endpoint", "status_code", "duration_ms"} + metadata.Keys
      ensures r.Ok? ==> forall k | k in metadata :: r.value.metadata[k] == metadata[k]
      ensures r.Ok? && "api_name" !in metadata ==> r.value.metadata["api_name"] == Text(apiName)
      ensures r.Ok? && "endpoint" !in metadata ==> r.value.metadata["endpoint"] == Text(endpoint)
      ensures r.Ok? && "status_code" !in metadata ==> r.value.metadata["status_code"] == Number(statusCode)
      ensures r.Ok? && "duration_ms" !in metadata ==> r.value.metadata["duration_ms"] == Number(Milliseconds(durationNanos))
    {
      var base := map["api_name" := Text(apiName), "endpoint" := Text(endpoint),
                      "status_code" := Number(statusCode), "duration_ms" := Number(Milliseconds(durationNanos))];
      SendLog("INFO", "external_api", "API call to " + apiName, base + metadata)
    }

    function ServiceCommunication(targetService: string, operation: string, success: bool, durationNanos: int, metadata: Metadata): (r: Result<LogRequest>)
      ensures r.Err? <==> baseUrl == ""
      ensures r.Ok? ==> (r.value.level == "ERROR" <==> !success) && (r.value.level == "INFO" <==> success)
      ensures r.Ok? ==> r.value.service == serviceName && r.value.event == "service_communication"
      ensures r.Ok? ==> r.value.message == "Communication with " + targetService + ": " + operation
      ensures r.Ok? ==> r.value.metadata.Keys == {"target_service", "operation", "success", "duration_ms"} + metadata.Keys
      ensures r.Ok? ==> forall k | k in metadata :: r.value.metadata[k] == metadata[k]
      ensures r.Ok? && "target_service" !in metadata ==> r.value.metadata["target_service"] == Text(targetService)
      ensures r.Ok? && "operation" !in metadata ==> r.value.metadata["operation"] == Text(operation)
      ensures r.Ok? && "success" !in metadata ==> r.value.metadata["success"] == Flag(success)
      ensures r.Ok? && "duration_ms" !in metadata ==> r.value.metadata["duration_ms"] == Number(Milliseconds(durationNanos))
    {
      var base := map["target_service" := Text(targetService), "operation" := Text(operation),
                      "success" := Flag(success), "duration_ms" := Number(Milliseconds(durationNanos))];
      var level := if !success then "ERROR" else "INFO";
      SendLog(level, "service_communication", "Communication with " + targetService + ": " + operation, base + metadata)
    }
  }

  /** The status at the end of an HTTP-request message reads back as the status code. */
  lemma {:induction false} HTTPRequestMessageEndsWithStatus(c: Client, httpMethod: string, path: string, statusCode: nat, durationNanos: int, metadata: Metadata)
    requires c.baseUrl != ""
    ensures var m := c.HTTPRequest(httpMethod, path, statusCode, durationNanos, metadata).value.message;
      var prefix := httpMethod + " " + path + " - ";
      |prefix| < |m| && m[..|prefix|] == prefix && ParseDecimal(m[|prefix|..]) == statusCode
  {
    var m := c.HTTPRequest(httpMethod, path, statusCode, durationNanos, metadata).value.message;
    var prefix := httpMethod + " " + path + " - ";
    ParseNatToString(statusCode);
    assert m == prefix + NatToString(statusCode);
    assert m[|prefix|..] == NatToString(statusCode);
  }

  /** The HTTP-request message of the client tests. */
  lemma HTTPRequestMessageExample(c: Client, durationNanos: int, metadata: Metadata)
    requires c.baseUrl != ""
    ensures c.HTTPRequest("POST", "/api/test", 201, durationNanos, metadata).value.message == "POST /api/test - 201"
  {
    assert IntToString(201) == "201";
  }

  /** The merge of the client tests: a shared key takes the additional value. */
  method MergeExample() returns (merged: Metadata)
    ensures merged == map["key1" := Text("value1"), "key2" := Text("new_value2"), "key3" := Text("value3")]
  {
    merged := MergeMetadata(map["key1" := Text("value1"), "key2" := Text("value2")],
                            map["key2" := Text("new_value2"), "key3" := Text("value3")]);
  }

  /**
   * The payloads of the client's event tests: the durations arrive in whole
   * milliseconds, and the base keys the caller's map does not override keep
   * the arguments.
   */
  lemma EventPayloadExamples(c: Client)
    requires c.baseUrl != ""
    ensures var r := c.HTTPRequest("POST", "/api/test", 201, 150 * 1000000, map["user_agent" := Text("test-agent")]).value;
      r.service == c.serviceName && r.metadata["duration_ms"] == Number(150) && r.metadata["user_agent"] == Text("test-agent")
    ensures var r := c.ExternalAPI("telegram", "https://api.telegram.org/getUpdates", 200, 1200 * 1000000,
                                   map["request_id" := Text("req-123")]).value;
      r.metadata["api_name"] == Text("telegram") && r.metadata["duration_ms"] == Number(1200)
    ensures var r := c.ServiceCommunication("gateway-service", "send_update", true, 75 * 1000000,
                                            map["request_id" := Text("req-456")]).value;
      r.level == "INFO" && r.metadata["success"] == Flag(true)
    ensures var r := c.ServiceCommunication("gateway-service", "send_update", false, 2000 * 1000000,
                                            map["error" := Text("timeout")]).value;
      r.level == "ERROR" && r.metadata["success"] == Flag(false) && r.metadata["error"] == Text("timeout")
  {
  }
}
