/** The gRPC server interceptor: every call except the health check is
    handed to the canonical logger with the call's bodies, error and
    metadata, and the handler's response and error are passed back. */
module GrpcServer {
  import opened Common
  import Canonical
  import Logger

  const HealthCheckMethod: string := "/grpc.health.v1.Health/Check"

  const NotInitialized: string := "Logger not initialized. Call logger.Init() first."

  /** `protoMessageToJsonBytes`: no bytes (and no error) for a nil message,
      else what protojson makes of it. */
  function ProtoMessageToJsonBytes(message: Option<ProtoMessage>,
                                   marshal: ProtoMessage -> Result<string, string>): (r: Result<string, string>)
    ensures message.None? ==> r == Ok("")
    ensures message.Some? ==> r == marshal(message.value)
  {
    match message
    case None => Ok("")
    case Some(m) => marshal(m)
  }

  /** The body the interceptor logs: a failed conversion is ignored and logs
      as no bytes. */
  function LoggedBody(message: Option<ProtoMessage>, marshal: ProtoMessage -> Result<string, string>): (body: string)
    ensures message.None? ==> body == ""
    ensures message.Some? && marshal(message.value).Err? ==> body == ""
    ensures message.Some? && marshal(message.value).Ok? ==> body == marshal(message.value).value
  {
    match ProtoMessageToJsonBytes(message, marshal)
    case Ok(b) => b
    case Err(_) => ""
  }

  /** The level hint: Error exactly when the handler failed. */
  function HintLevel(err: Option<Canonical.ErrorValue>): (l: Canonical.Level)
    ensures l == Canonical.Error <==> err.Some?
    ensures l == Canonical.Info <==> err.None?
  {
    if err.Some? then Canonical.Error else Canonical.Info
  }

  /** The metadata fields of a call. */
  function ServerMetadata(fullMethod: string, duration: string): seq<Attr>
  {
    [Attr("logger_name", Str("canonical")),
     Attr("grpcserver_md", Group([
       Attr("type", Str("grpcserver")),
       Attr("method", Str("POST")),
       Attr("path", Str(fullMethod)),
       Attr("duration", Str(duration))]))]
  }

  /** The canonical record of a call. */
  function ServerLog(fullMethod: string, err: Option<Canonical.ErrorValue>, elapsed: int): (log: Canonical.CanonicalLog)
    ensures log.transport == "grpc" && log.traffic == "internal" && log.httpMethod == "POST"
    ensures log.status == Canonical.StatusCode(err)
    ensures log.path == fullMethod && log.duration == elapsed
    ensures log.message == "" && log.logLevel == 0
  {
    Canonical.CanonicalLog("grpc", "internal", "POST", Canonical.StatusCode(err), fullMethod, elapsed, "", 0)
  }

  /** What the wrapped handler returned. */
  datatype HandlerResult = HandlerResult(resp: Option<ProtoMessage>, err: Option<Canonical.ErrorValue>)

  /** `loggerInterceptor`, holding a copy of the logger it writes to. */
  datatype LoggerInterceptor = LoggerInterceptor(logger: SlogLogger)
  {
    /** The function `Intercept` returns, applied to one call. The health
        check is passed through without a record; every other call yields
        the canonical record. The handler's result always comes back as it
        was. */
    method Intercept(slot: Canonical.TemplateSlot, io: Canonical.Collaborators,
                     marshal: ProtoMessage -> Result<string, string>,
                     fullMethod: string, req: Option<ProtoMessage>, handler: HandlerResult, elapsed: int)
      returns (resp: Option<ProtoMessage>, err: Option<Canonical.ErrorValue>, rec: Option<Record>)
      ensures resp == handler.resp && err == handler.err
      ensures rec.None? <==> fullMethod == HealthCheckMethod
      ensures rec.Some? ==>
        Canonical.Assembled(rec.value, slot.compiled, io, logger,
                            LoggedBody(req, marshal), LoggedBody(handler.resp, marshal), handler.err,
                            ServerLog(fullMethod, handler.err, elapsed),
                            ServerMetadata(fullMethod, io.durationString(elapsed)))
    {
      if fullMethod == HealthCheckMethod {
        return handler.resp, handler.err, None;
      }

      var requestBody := LoggedBody(req, marshal);
      resp, err := handler.resp, handler.err;
      var responseBody := LoggedBody(resp, marshal);

      var fields := ServerMetadata(fullMethod, io.durationString(elapsed));
      var level := HintLevel(err);

      var r := Canonical.CanonicalLogger(slot, io, logger, level, requestBody, responseBody, err,
                                          ServerLog(fullMethod, err, elapsed), fields);
      rec := Some(r);
    }
  }

  /** `NewUnaryLoggerInterceptor`: the logger gains `logger_name=grpc_interceptor`. */
  function NewUnaryLoggerInterceptor(slogger: SlogLogger): (l: LoggerInterceptor)
    ensures l.logger.attrs == slogger.attrs + [Attr("logger_name", Str("grpc_interceptor"))]
  {
    LoggerInterceptor(SlogLogger(slogger.attrs + [Attr("logger_name", Str("grpc_interceptor"))]))
  }

  /** `GRPCServerInterceptor`: the panic before `Init` is the error result. */
  function GRPCServerInterceptor(g: Logger.Globals): (r: Result<LoggerInterceptor, string>)
    reads g
    ensures r.Err? <==> g.slog.None?
    ensures r.Err? ==> r.error == NotInitialized
    ensures r.Ok? ==> r.value == NewUnaryLoggerInterceptor(g.slog.value)
  {
    if g.slog.None? then Err(NotInitialized) else Ok(NewUnaryLoggerInterceptor(g.slog.value))
  }

  /** After `Init` the interceptor is available and writes through the
      installed logger. */
  method InterceptorAfterInit(g: Logger.Globals, config: LoggerConfig, environ: map<string, string>)
    returns (r: Result<LoggerInterceptor, string>)
    modifies g, g.template
    ensures r.Ok? && r.value.logger.attrs == [Attr("logger_name", Str("grpc_interceptor"))]
  {
    var s := g.Init(config, environ);
    r := GRPCServerInterceptor(g);
  }

  /** A failed call is always logged at Error, with its status code. */
  lemma FailedCallIsError(rec: Record, compiled: bool, io: Canonical.Collaborators, logger: SlogLogger,
                          request: string, response: string, fullMethod: string,
                          e: Canonical.ErrorValue, elapsed: int)
    requires Canonical.Assembled(rec, compiled, io, logger, request, response, Some(e),
                                 ServerLog(fullMethod, Some(e), elapsed),
                                 ServerMetadata(fullMethod, io.durationString(elapsed)))
    ensures rec.level == LevelError
    ensures ServerLog(fullMethod, Some(e), elapsed).status == (if e.RpcStatus? then e.code else 2)
  {
  }
}
