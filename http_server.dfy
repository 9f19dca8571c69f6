/** The Fiber HTTP middleware: each request that completes is handed to the
    canonical logger with its bodies, error, status and header metadata,
    and the downstream error is returned unchanged. */
module HttpServer {
  import opened Common
  import Canonical
  import Logger

  const NotInitialized: string := "Logger not initialized. Call logger.Init() first."

  /** `convertHeaderAttrToString`: the first value of a header, or "". */
  function ConvertHeaderAttrToString(key: string, headers: map<string, seq<string>>): (r: string)
    ensures key in headers && |headers[key]| > 0 ==> r == headers[key][0]
    ensures key !in headers || headers[key] == [] ==> r == ""
  {
    if key in headers && |headers[key]| > 0 then headers[key][0] else ""
  }

  /** An empty header map, a missing key and an empty value list all give "". */
  lemma MissingHeadersAreEmpty(key: string, other: string)
    requires key != other
    ensures ConvertHeaderAttrToString(key, map[]) == ""
    ensures ConvertHeaderAttrToString(key, map[other := ["v"]]) == ""
    ensures ConvertHeaderAttrToString(key, map[key := []]) == ""
    ensures ConvertHeaderAttrToString(key, map[key := ["first", "second"]]) == "first"
  {
  }

  /** `fmt.Sprint` of a string slice: the elements between brackets,
      separated by single spaces; a missing header prints as "[]". */
  function SprintStrings(values: seq<string>): (r: string)
    ensures values == [] ==> r == "[]"
    ensures |r| >= 2 && r[0] == '[' && r[|r| - 1] == ']'
  {
    "[" + JoinWith(values, " ") + "]"
  }

  function HeaderValues(key: string, headers: map<string, seq<string>>): seq<string>
  {
    if key in headers then headers[key] else []
  }

  /** The level hint: Error exactly for a status of 400 or more. */
  function HintLevel(status: int): (l: Canonical.Level)
    ensures l == Canonical.Error <==> status >= 400
    ensures l == Canonical.Info <==> status < 400
  {
    if status >= 400 then Canonical.Error else Canonical.Info
  }

  /** The request as the middleware sees it. */
  datatype Request = Request(httpMethod: string, path: string, ip: string,
                             headers: map<string, seq<string>>, body: string)

  /** What `c.Next()` did: it returned (with the response status and body
      then set), or it panicked. */
  datatype Downstream =
    | Returned(err: Option<Canonical.ErrorValue>, status: int, body: string)
    | Panicked

  /** The response the client gets. */
  datatype Response = Response(status: int, body: string)

  /** The metadata fields of a request. */
  function HttpMetadata(req: Request, duration: string): seq<Attr>
  {
    [Attr("logger_name", Str("canonical")),
     Attr("httpserver_md", Group([
       Attr("type", Str("httpserver")),
       Attr("method", Str(req.httpMethod)),
       Attr("path", Str(req.path)),
       Attr("ip", Str(req.ip)),
       Attr("duration", Str(duration)),
       Attr("accept-language", Str(ConvertHeaderAttrToString("Accept-Language", req.headers))),
       Attr("x-request-id", Str(ConvertHeaderAttrToString("X-Request-Id", req.headers))),
       Attr("x-username", Str(ConvertHeaderAttrToString("X-Username", req.headers))),
       Attr("x-user-id", Str(ConvertHeaderAttrToString("X-User-Id", req.headers))),
       Attr("x-permissions", Str(SprintStrings(HeaderValues("X-Permissions", req.headers))))]))]
  }

  /** The canonical record of a request. */
  function HttpLog(req: Request, status: int, elapsed: int): (log: Canonical.CanonicalLog)
    ensures log.transport == "http" && log.traffic == "internal"
    ensures log.httpMethod == req.httpMethod && log.status == status && log.path == req.path
    ensures log.duration == elapsed && log.message == "" && log.logLevel == 0
  {
    Canonical.CanonicalLog("http", "internal", req.httpMethod, status, req.path, elapsed, "", 0)
  }

  /** `loggingMiddleware`, holding a copy of the logger it writes to. */
  datatype LoggingMiddleware = LoggingMiddleware(logger: SlogLogger)
  {
    /** The handler `Logging` returns, applied to one request. A completed
        request yields the canonical record and the downstream error; a
        panic is recovered into a 500 response and a nil error, and the
        logging after `c.Next()` never runs. */
    method Logging(slot: Canonical.TemplateSlot, io: Canonical.Collaborators, req: Request,
                   next: Downstream, elapsed: int)
      returns (err: Option<Canonical.ErrorValue>, response: Response, rec: Option<Record>)
      ensures next.Returned? ==> err == next.err && response == Response(next.status, next.body)
      ensures next.Returned? ==> rec.Some?
      ensures next.Returned? && rec.Some? ==>
        Canonical.Assembled(rec.value, slot.compiled, io, logger, req.body, next.body, next.err,
                            HttpLog(req, next.status, elapsed), HttpMetadata(req, io.durationString(elapsed)))
      ensures next.Panicked? ==>
        err.None? && rec.None? && response == Response(500, "{\"error\":\"Internal Server Error\"}")
    {
      var requestBody := req.body;
      if next.Panicked? {
        return None, Response(500, "{\"error\":\"Internal Server Error\"}"), None;
      }
      err := next.err;
      response := Response(next.status, next.body);
      var responseBody := response.body;

      var fields := HttpMetadata(req, io.durationString(elapsed));
      var level := HintLevel(response.status);

      var r := Canonical.CanonicalLogger(slot, io, logger, level, requestBody, responseBody, err,
                                          HttpLog(req, response.status, elapsed), fields);
      rec := Some(r);
    }
  }

  /** `NewLoggingMiddleware`: the logger gains `logger_name=http_middleware`. */
  function NewLoggingMiddleware(slogger: SlogLogger): (m: LoggingMiddleware)
    ensures m.logger.attrs == slogger.attrs + [Attr("logger_name", Str("http_middleware"))]
  {
    LoggingMiddleware(SlogLogger(slogger.attrs + [Attr("logger_name", Str("http_middleware"))]))
  }

  /** `HTTPMiddleware`: the panic before `Init` is the error result. */
  function HTTPMiddleware(g: Logger.Globals): (r: Result<LoggingMiddleware, string>)
    reads g
    ensures r.Err? <==> g.slog.None?
    ensures r.Err? ==> r.error == NotInitialized
    ensures r.Ok? ==> r.value == NewLoggingMiddleware(g.slog.value)
  {
    if g.slog.None? then Err(NotInitialized) else Ok(NewLoggingMiddleware(g.slog.value))
  }

  /** The record has the request's severity from the error alone: a 500
      status with a nil error is still logged at Info. */
  lemma StatusDoesNotDecideSeverity(rec: Record, compiled: bool, io: Canonical.Collaborators,
                                    logger: SlogLogger, req: Request, body: string, elapsed: int)
    requires Canonical.Assembled(rec, compiled, io, logger, req.body, body, None,
                                 HttpLog(req, 500, elapsed), HttpMetadata(req, io.durationString(elapsed)))
    ensures HintLevel(500) == Canonical.Error
    ensures rec.level == LevelInfo
  {
  }

  /** The permissions header prints as Go prints a string slice. */
  lemma PermissionsExample()
    ensures SprintStrings(["read", "write"]) == "[read write]"
  {
    assert JoinWith(["read", "write"], " ") == "read write" by {
      assert ["read", "write"][1..] == ["write"];
    }
  }
}
