/**
 * The instrumentation library every service installs: configuration with
 * defaults, the ingress tagger (`requestLogger`), the `res.send` wrapper that
 * updates the request statistics (`responseLogger`), the error middleware
 * (`errorHandler`) and the statistics getter (`getApiStats`).
 *
 * Log emission is recorded as an abstract record appended to the ghost
 * sequence `logs`; the logging library and its sinks are not modelled.
 */
module Logify {
  import opened Common
  import opened Stats

  datatype Level = Debug | Info | Warn | Error

  datatype Field = Text(name: string, text: string) | Number(name: string, number: int)

  /** A log call: severity, message, the request it belongs to (if any) and its metadata. */
  datatype LogRecord = LogRecord(level: Level, message: string, requestId: Option<string>, fields: seq<Field>)

  /** The options object given to the constructor; an absent option is None. */
  datatype Options = Options(
    serviceName: string,
    elasticsearchUrl: Option<string>,
    indexPrefix: Option<string>,
    logLevel: Option<string>)

  /** The configuration an instance keeps. */
  datatype Config = Config(
    serviceName: string,
    elasticsearchUrl: string,
    indexPrefix: string,
    logLevel: string)

  const DefaultElasticsearchUrl: string := "http://localhost:9200"
  const DefaultIndexPrefix: string := "logify"
  const DefaultLogLevel: string := "info"

  /** The fixed body the error middleware sends, `{ error: 'Internal server error' }` as JSON. */
  const InternalErrorBody: Json := "{\"error\":\"Internal server error\"}"

  /** The constructor's `options.x || default` for each option; the service name is kept as given. */
  function Configure(o: Options): (c: Config)
    ensures c.serviceName == o.serviceName
    ensures Truthy(o.elasticsearchUrl) ==> c.elasticsearchUrl == o.elasticsearchUrl.value
    ensures !Truthy(o.elasticsearchUrl) ==> c.elasticsearchUrl == "http://localhost:9200"
    ensures Truthy(o.indexPrefix) ==> c.indexPrefix == o.indexPrefix.value
    ensures !Truthy(o.indexPrefix) ==> c.indexPrefix == "logify"
    ensures Truthy(o.logLevel) ==> c.logLevel == o.logLevel.value
    ensures !Truthy(o.logLevel) ==> c.logLevel == "info"
  {
    Config(
      o.serviceName,
      Or(o.elasticsearchUrl, DefaultElasticsearchUrl),
      Or(o.indexPrefix, DefaultIndexPrefix),
      Or(o.logLevel, DefaultLogLevel))
  }

  /** The arrival record the ingress tagger logs under the fresh request id. */
  function IngressRecord(requestId: string, verb: string, path: string): (r: LogRecord)
    ensures r.level == Info && r.message == "Incoming request" && r.requestId == Some(requestId)
    ensures Text("method", verb) in r.fields && Text("path", path) in r.fields
  {
    LogRecord(Info, "Incoming request", Some(requestId), [Text("method", verb), Text("path", path)])
  }

  /** The departure record a statistics wrapper logs for the request it closed over. */
  function EgressRecord(requestId: Option<string>, statusCode: int, responseTime: int, path: string, verb: string)
    : (r: LogRecord)
    ensures r.level == Info && r.message == "Outgoing response" && r.requestId == requestId
    ensures Number("statusCode", statusCode) in r.fields && Number("responseTime", responseTime) in r.fields
    ensures Text("path", path) in r.fields && Text("method", verb) in r.fields
  {
    LogRecord(Info, "Outgoing response", requestId,
      [Number("statusCode", statusCode), Number("responseTime", responseTime), Text("path", path), Text("method", verb)])
  }

  /** An inbound request; `startTime` and `requestId` are the properties the ingress tagger adds. */
  class Request {
    const verb: string
    const path: string
    var startTime: Option<int>
    var requestId: Option<string>

    constructor (verb: string, path: string)
      ensures this.verb == verb && this.path == path
      ensures startTime == None && requestId == None
    {
      this.verb, this.path := verb, path;
      startTime, requestId := None, None;
    }
  }

  /**
    * What a statistics wrapper reads from the request it closed over: the
    * request id, the start time the ingress tagger stamped, the path and the
    * method.
    */
  datatype Tag = Tag(requestId: Option<string>, startTime: Option<int>, path: string, verb: string)

  function TagOf(req: Request): (t: Tag)
    reads req
    ensures t.requestId == req.requestId && t.startTime == req.startTime
    ensures t.path == req.path && t.verb == req.verb
  {
    Tag(req.requestId, req.startTime, req.path, req.verb)
  }

  /**
    * An outbound response. `wrappers` lists what each statistics wrapper of
    * `send` closed over, the last installed (outermost) first: empty while
    * `send` is the framework's own, and one entry more for each further
    * install, since each wrapper saves the `send` it replaces. `delivered`
    * lists the argument lists the framework's own `send` received, in order.
    */
  class Response {
    var statusCode: int
    var wrappers: seq<Tag>
    var delivered: seq<seq<Json>>

    constructor ()
      ensures statusCode == 200 && wrappers == [] && delivered == []
    {
      statusCode, wrappers, delivered := 200, [], [];
    }
  }

  /** Every wrapper's request carries the ingress tagger's start time. */
  predicate Tagged(ws: seq<Tag>) {
    forall i :: 0 <= i < |ws| ==> ws[i].startTime.Some?
  }

  /** The response times the wrappers `ws` compute at `now`, in the order they run. */
  function ResponseTimes(ws: seq<Tag>, now: int): (ts: seq<int>)
    requires Tagged(ws)
    ensures |ts| == |ws|
  {
    if ws == [] then [] else [now - ws[0].startTime.value] + ResponseTimes(ws[1..], now)
  }

  /** The departure records the wrappers `ws` log, in the order they run. */
  function EgressRecords(ws: seq<Tag>, statusCode: int, now: int): (rs: seq<LogRecord>)
    requires Tagged(ws)
    ensures |rs| == |ws|
  {
    if ws == [] then []
    else
      [EgressRecord(ws[0].requestId, statusCode, now - ws[0].startTime.value, ws[0].path, ws[0].verb)]
        + EgressRecords(ws[1..], statusCode, now)
  }

  /** The wrapper at position `i` measures the time since its own request's start. */
  lemma {:induction false} ResponseTimesAt(ws: seq<Tag>, now: int, i: nat)
    requires Tagged(ws) && i < |ws|
    ensures ResponseTimes(ws, now)[i] == now - ws[i].startTime.value
  {
    if i > 0 {
      ResponseTimesAt(ws[1..], now, i - 1);
    }
  }

  /** The wrapper at position `i` logs its own request's id, path, method and response time. */
  lemma {:induction false} EgressRecordsAt(ws: seq<Tag>, statusCode: int, now: int, i: nat)
    requires Tagged(ws) && i < |ws|
    ensures EgressRecords(ws, statusCode, now)[i]
      == EgressRecord(ws[i].requestId, statusCode, now - ws[i].startTime.value, ws[i].path, ws[i].verb)
  {
    if i > 0 {
      EgressRecordsAt(ws[1..], statusCode, now, i - 1);
    }
  }

  /** Failure details of an unhandled error: `err.message` and `err.stack`. */
  datatype ErrorInfo = ErrorInfo(message: string, stack: string)

  class Logify {
    const config: Config
    const apiStats: ApiStats
    ghost var logs: seq<LogRecord>
    /** How many times the error middleware has run; each run counts a failure of its own. */
    ghost var unhandledErrors: nat

    ghost predicate Valid()
      reads this, apiStats
    {
      && apiStats.Valid()
      && apiStats.successfulRequests + apiStats.failedRequests == apiStats.totalRequests + unhandledErrors
    }

    constructor (options: Options)
      ensures Valid() && fresh(apiStats)
      ensures config == Configure(options)
      ensures apiStats.totalRequests == 0 && apiStats.successfulRequests == 0
      ensures apiStats.failedRequests == 0 && apiStats.averageResponseTime == 0.0
      ensures logs == [] && unhandledErrors == 0
    {
      config := Configure(options);
      apiStats := new ApiStats();
      logs, unhandledErrors := [], 0;
    }

    /**
      * The ingress middleware: stamps the arrival time and a fresh request id
      * on the request and logs the arrival under that id. Returning models the
      * call of `next`.
      */
    method RequestLogger(req: Request, now: int, freshId: string)
      modifies this`logs, req
      ensures req.startTime == Some(now) && req.requestId == Some(freshId)
      ensures logs == old(logs) + [IngressRecord(freshId, req.verb, req.path)]
    {
      req.startTime := Some(now);
      req.requestId := Some(freshId);
      logs := logs + [IngressRecord(freshId, req.verb, req.path)];
    }

    /**
      * The egress middleware: replaces `res.send` by a statistics wrapper
      * that closes over `req` and calls the `send` it replaced.
      */
    method ResponseLogger(req: Request, res: Response)
      modifies res`wrappers
      ensures res.wrappers == [TagOf(req)] + old(res.wrappers)
    {
      res.wrappers := [TagOf(req)] + res.wrappers;
    }

    /**
      * A call of the `send` made up by the wrappers from position `i` on. The
      * wrapper at `i` counts one request with the response time of the
      * request it closed over, classifies it by the status code, logs it, and
      * then calls the `send` it replaced with the empty `arguments` of
      * `responseLogger()`. With no wrapper left, the framework's own `send`
      * receives `args`.
      */
    method SendThrough(res: Response, i: nat, args: seq<Json>, now: int)
      requires Valid() && i <= |res.wrappers| && Tagged(res.wrappers)
      modifies this`logs, apiStats, res`delivered
      decreases |res.wrappers| - i
      ensures Valid()
      ensures res.delivered == old(res.delivered) + [if i == |res.wrappers| then args else []]
      ensures apiStats.totalRequests == old(apiStats.totalRequests) + (|res.wrappers| - i)
      ensures apiStats.latencies == old(apiStats.latencies) + ResponseTimes(res.wrappers[i..], now)
      ensures res.statusCode >= 400 ==>
        && apiStats.failedRequests == old(apiStats.failedRequests) + (|res.wrappers| - i)
        && apiStats.successfulRequests == old(apiStats.successfulRequests)
      ensures res.statusCode < 400 ==>
        && apiStats.successfulRequests == old(apiStats.successfulRequests) + (|res.wrappers| - i)
        && apiStats.failedRequests == old(apiStats.failedRequests)
      ensures logs == old(logs) + EgressRecords(res.wrappers[i..], res.statusCode, now)
    {
      if i == |res.wrappers| {
        res.delivered := res.delivered + [args];
      } else {
        WrapperStep(res.wrappers[i], res.statusCode, now);
        assert res.wrappers[i..][1..] == res.wrappers[i + 1..];
        SendThrough(res, i + 1, [], now);
      }
    }

    /** The statistics and logging a wrapper that closed over `w` does before calling on. */
    method WrapperStep(w: Tag, statusCode: int, now: int)
      requires Valid() && w.startTime.Some?
      modifies this`logs, apiStats
      ensures Valid()
      ensures apiStats.totalRequests == old(apiStats.totalRequests) + 1
      ensures apiStats.latencies == old(apiStats.latencies) + [now - w.startTime.value]
      ensures statusCode >= 400 ==>
        && apiStats.failedRequests == old(apiStats.failedRequests) + 1
        && apiStats.successfulRequests == old(apiStats.successfulRequests)
      ensures statusCode < 400 ==>
        && apiStats.successfulRequests == old(apiStats.successfulRequests) + 1
        && apiStats.failedRequests == old(apiStats.failedRequests)
      ensures logs == old(logs) + [EgressRecord(w.requestId, statusCode, now - w.startTime.value, w.path, w.verb)]
    {
      var responseTime := now - w.startTime.value;
      apiStats.CountRequest(responseTime);
      if statusCode >= 400 {
        apiStats.CountFailure();
      } else {
        apiStats.CountSuccess();
      }
      logs := logs + [EgressRecord(w.requestId, statusCode, responseTime, w.path, w.verb)];
    }

    /**
      * `res.send(data)` at time `now`. Each installed wrapper counts the call
      * once (there is no guard against a second send on the same request),
      * and the framework's own `send` is called once, with `data` only when
      * no wrapper is installed.
      */
    method Send(res: Response, data: Json, now: int)
      requires Valid() && Tagged(res.wrappers)
      modifies this`logs, apiStats, res`delivered
      ensures Valid()
      ensures res.delivered == old(res.delivered) + [if res.wrappers == [] then [data] else []]
      ensures apiStats.totalRequests == old(apiStats.totalRequests) + |res.wrappers|
      ensures apiStats.latencies == old(apiStats.latencies) + ResponseTimes(res.wrappers, now)
      ensures res.statusCode >= 400 ==>
        && apiStats.failedRequests == old(apiStats.failedRequests) + |res.wrappers|
        && apiStats.successfulRequests == old(apiStats.successfulRequests)
      ensures res.statusCode < 400 ==>
        && apiStats.successfulRequests == old(apiStats.successfulRequests) + |res.wrappers|
        && apiStats.failedRequests == old(apiStats.failedRequests)
      ensures logs == old(logs) + EgressRecords(res.wrappers, res.statusCode, now)
    {
      assert res.wrappers[0..] == res.wrappers;
      SendThrough(res, 0, [data], now);
    }

    /**
      * The error middleware at time `now`: logs the error's message and stack
      * under the request's id, counts one failure, and answers 500 with a
      * fixed body that carries nothing of the error. The answer goes through
      * `res.send`, so each installed wrapper also counts it, as a failed
      * request; with none installed, the request count and the mean are
      * untouched.
      */
    method ErrorHandler(err: ErrorInfo, req: Request, res: Response, now: int)
      requires Valid() && Tagged(res.wrappers)
      modifies this`logs, this`unhandledErrors, apiStats, res`statusCode, res`delivered
      ensures Valid() && unhandledErrors == old(unhandledErrors) + 1
      ensures apiStats.failedRequests == old(apiStats.failedRequests) + 1 + |res.wrappers|
      ensures apiStats.totalRequests == old(apiStats.totalRequests) + |res.wrappers|
      ensures apiStats.successfulRequests == old(apiStats.successfulRequests)
      ensures apiStats.latencies == old(apiStats.latencies) + ResponseTimes(res.wrappers, now)
      ensures res.wrappers == [] ==> apiStats.averageResponseTime == old(apiStats.averageResponseTime)
      ensures logs == old(logs) + [LogRecord(Error, "Unhandled error", req.requestId,
                                             [Text("error", err.message), Text("stack", err.stack)])]
                                + EgressRecords(res.wrappers, 500, now)
      ensures res.statusCode == 500
      ensures res.delivered == old(res.delivered) + [if res.wrappers == [] then [InternalErrorBody] else []]
    {
      logs := logs + [LogRecord(Error, "Unhandled error", req.requestId,
                                [Text("error", err.message), Text("stack", err.stack)])];
      apiStats.CountFailure();
      unhandledErrors := unhandledErrors + 1;
      res.statusCode := 500;
      Send(res, InternalErrorBody, now);
      if res.wrappers == [] {
        assert old(apiStats.latencies) + [] == old(apiStats.latencies);
      }
    }

    /**
      * The current counters. The requests counted so far are exactly the
      * recorded response times, and their mean is the stored average;
      * successes plus failures exceed the request count by the number of
      * error-middleware runs.
      */
    function GetApiStats(): (s: Snapshot)
      reads this, apiStats
      requires Valid()
      ensures s.totalRequests == |apiStats.latencies|
      ensures s.averageResponseTime == Mean(apiStats.latencies)
      ensures s.successfulRequests + s.failedRequests == s.totalRequests + unhandledErrors
    {
      apiStats.Read()
    }
  }

  /** Sending twice on one request counts it twice: the wrapper has no completion guard. */
  method DoubleSendCountsTwice() returns (s: Snapshot, delivered: seq<seq<Json>>)
    ensures s.totalRequests == 2 && s.successfulRequests == 2 && s.failedRequests == 0
    ensures delivered == [[], []]
  {
    var logify := new Logify(Options("order-service", None, None, None));
    var req := new Request("GET", "/api/orders/1");
    var res := new Response();
    logify.RequestLogger(req, 1000, "id-1");
    logify.ResponseLogger(req, res);
    logify.Send(res, "{}", 1020);
    logify.Send(res, "{}", 1040);
    s := logify.GetApiStats();
    delivered := res.delivered;
  }

  /** Installing the egress middleware twice nests two wrappers: one send counts two requests. */
  method InstalledTwiceCountsTwice() returns (s: Snapshot, delivered: seq<seq<Json>>)
    ensures s == Snapshot(2, 2, 0, 30.0)
    ensures delivered == [[]]
  {
    var logify := new Logify(Options("user-service", None, None, None));
    var req := new Request("GET", "/api/users/1");
    var res := new Response();
    logify.RequestLogger(req, 0, "id-1");
    logify.ResponseLogger(req, res);
    logify.ResponseLogger(req, res);
    logify.Send(res, "{}", 30);
    assert logify.apiStats.latencies == [30, 30];
    assert Mean([30, 30]) == 30.0 by { assert [30, 30][1..] == [30] && [30][1..] == []; }
    s := logify.GetApiStats();
    delivered := res.delivered;
  }

  /**
    * A 201 after 50 ms, then an error raised before the logging middleware
    * ran (the error middleware is registered ahead of the routes, so it
    * sees only those): a failure is added but neither a request nor a
    * response time, so the mean stays 50.
    */
  method SuccessThenUnhandledError() returns (first: Snapshot, second: Snapshot, status: int,
                                              delivered: seq<seq<Json>>)
    ensures first == Snapshot(1, 1, 0, 50.0)
    ensures second == Snapshot(1, 1, 1, 50.0)
    ensures status == 500 && delivered == [[InternalErrorBody]]
  {
    var logify := new Logify(Options("orders", None, None, None));
    var req := new Request("POST", "/api/orders");
    var res := new Response();
    logify.RequestLogger(req, 0, "id-1");
    logify.ResponseLogger(req, res);
    res.statusCode := 201;
    logify.Send(res, "{}", 50);
    assert logify.apiStats.latencies == [50];
    assert Mean([50]) == 50.0 by { assert [50][1..] == []; }
    first := logify.GetApiStats();

    var req2 := new Request("POST", "/api/orders");
    var res2 := new Response();
    logify.ErrorHandler(ErrorInfo("Unexpected token", "at JSON.parse"), req2, res2, 100);
    second := logify.GetApiStats();
    status, delivered := res2.statusCode, res2.delivered;
  }
}
