# blogger logging facade — verified model

This project models the logging facade of the `blogger` service: the
canonical-log assembly that turns one HTTP request or gRPC call into one
structured slog record, and the rules around it:

- the call adapters: the Fiber HTTP middleware, the gRPC server interceptor
  and the gRPC client interceptor with its sensitive-field masker;
- configuration: defaults, environment variables and the overrides applied
  after a YAML file;
- the zap helpers: the field filter, the level-name mapping and core
  selection;
- `Init`, Datadog identity and field enrichment, `Pathfinder` message
  composition;
- the pgx tracelog adapter.

One module per Go file:

| module | Go file |
|---|---|
| `Common` | shared values: slog attributes, records and levels, JSON, proto field descriptors, `Config`, ASCII string helpers |
| `StackTrace` | `strings.Split`/`strings.Join` on `"\n\t"` and the six-segment stack truncation of `logger/canonical_logger.go` |
| `Canonical` | `logger/canonical_logger.go` |
| `Config` | `config/config.go` |
| `Zap` | `logger/zap_logger.go` |
| `Logger` | `logger/logger.go` |
| `Pgx` | `logger/pgx_logger.go` |
| `GrpcClient` | `middleware/grpcclient/logging.go` |
| `GrpcServer` | `middleware/grpcserver/logging.go` |
| `HttpServer` | `middleware/httpserver/logging.go` |

Collaborators the model cannot see are parameters:

- JSON object decoding (`json.Unmarshal` into a map): `parseObject`.
- protojson marshalling and unmarshalling: `marshal` and `unmarshal`.
- `time.Duration.String`: `durationString`.
- Reading the config file and decoding its YAML: `read` and `unmarshal`.
- The process environment: a `map<string, string>`.
- The OpenTelemetry span context: optional trace and span ids.
- The measured elapsed time: an `int` of nanoseconds.

The shape of the model follows the code:

- Package state that the source assigns is a class:
  - `Logger.Globals` holds `Env`, `ServiceName`, `Version`, `Log` and `Slog`;
  - `Canonical.TemplateSlot` holds the compiled template;
  - `GrpcClient.DecodedMap` holds the map the masker rewrites in place;
  - `Logger.PendingRecord` is the record `AddDDFields` appends to.
- Loops are `while` loops. These include `parseIntSafe`, `Sanitize`,
  `EncodeEntry`, the masker's loop over struct fields and the pgx data loop.
- Each loop is proved against a specification function.
- html/template's escaping of the interpolated values in the summary line
  is written out (`Canonical.Escape`).

## Model

| member | source | states |
|---|---|---|
| Canonical.StatusCode | middleware/grpcserver/logging.go:76 | `status.Code(err)`: 0 for a nil error, the carried code for a gRPC status error, Unknown (2) for every other error |
| Canonical.ErrorText | logger/canonical_logger.go:52-54 | `ExceptionError.Error()` is the debug message |
| Canonical.DispatchLevel | logger/canonical_logger.go:160-171 | Debug, Info and Warn go to their own severity; every other level value, Error included, is emitted through `ErrorContext` |
| Canonical.GetStackField | logger/canonical_logger.go:194-203 | the first stack frame of a non-empty slice, else the "unknown" / "no stack information available" frame |
| Canonical.Sanitize | logger/canonical_logger.go:184-192 | the deny-list loop answers true exactly when the lower-cased key contains one of the patterns |
| Canonical.RedactedUpperCaseLogin | logger/canonical_logger.go:174-192 | `/api/auth/LOGIN` is redacted by the default patterns, matched case-insensitively |
| Canonical.NotRedactedWithoutLetters | logger/canonical_logger.go:174-192 | a key lacking all of the letters n, v, w, c and k, whatever their case, matches no default pattern |
| Canonical.HealthAndProfileNotRedacted | logger/canonical_logger.go:174-192 | `/health` and `/api/user/profile` are not redacted |
| Canonical.NormalizePayload | logger/canonical_logger.go:76-81 | a payload that decodes as a JSON object is logged as that object, any other payload as its raw text |
| Canonical.ReportedFrame | logger/canonical_logger.go:93-104 | the reported frame is the first one with its stack cut to six `"\n\t"` segments, or the default frame for an empty slice |
| Canonical.ExceptionFields | logger/canonical_logger.go:91-114 | for an `*ExceptionError` the response fields are the `error` stack group (present only for a non-nil slice) followed by the `response` group with API status, nil data, code, global and debug messages and field errors |
| Canonical.OtherErrorFields | logger/canonical_logger.go:115-131 | without an `*ExceptionError` the response fields are just the normalized response payload |
| Canonical.WithErrorMessage | logger/canonical_logger.go:89-114 | the summary message becomes the exception's `Error()` text only for an `*ExceptionError`; otherwise the log is unchanged |
| Canonical.TemplateSlot.Compile | logger/canonical_logger.go:56-63 | after compiling, a template is present |
| Canonical.TemplateSlot.Get | logger/canonical_logger.go:65-70 | gives the template exactly when one was compiled, else the "canonicalLogTemplate is nil" error |
| Canonical.EscapePlain | logger/canonical_logger.go:143-155 | html/template escaping leaves text without special characters unchanged |
| Canonical.RenderPlain | logger/canonical_logger.go:56-63 | with plain field values the summary is `[T][Tr] M S P D - Msg` |
| Canonical.RenderExample | logger/canonical_logger.go:143-155 | a 200 GET of `/api/users` over HTTP/incoming in 150ms with message Success renders as `[HTTP][incoming] GET 200 /api/users 150ms - Success` |
| Canonical.ClassifyError | logger/canonical_logger.go:89-131 | the resolved level is Info exactly for a nil error and Error otherwise; the response fields and the summary message are the ones the error kind calls for |
| Canonical.CanonicalLogger | logger/canonical_logger.go:72-172 | the emitted record has the severity the error decides whatever the hint; both payloads are REDACTED when the path is; the fields are request, response, `logger_name=canonical`, the metadata under an `md` group, in that order, after the logger's own attributes; the message is the rendered summary or "failed to get canonical log template" |
| Canonical.SummaryCarriesErrorText | logger/canonical_logger.go:114-153 | the rendered summary of an exception ends with its escaped debug message |
| StackTrace.Split | logger/canonical_logger.go:96 | `strings.Split` on `"\n\t"`: at least one part, no part containing the separator |
| StackTrace.JoinSplit | logger/canonical_logger.go:96-97 | joining the parts of a split gives back the original string |
| StackTrace.SplitJoin | logger/canonical_logger.go:96-97 | splitting the join of separator-free parts gives back the parts |
| StackTrace.TruncateShortStack | logger/canonical_logger.go:95-98 | a stack of at most six segments is unchanged |
| StackTrace.TruncateSegments | logger/canonical_logger.go:95-98 | the truncated stack keeps the first six segments of a longer stack and never has more than six |
| StackTrace.TruncateIsPrefix | logger/canonical_logger.go:95-98 | the truncated stack is a prefix of the original |
| StackTrace.TruncateTenLines | logger/canonical_logger.go:95-98 | a ten-line stack is cut to its first six lines |
| Config.Getenv | config/config.go:117 | `os.Getenv`: "" for an unset variable |
| Config.Wrap64 | config/config.go:143 | Go `int` arithmetic: the result is in the 64-bit range and equals the exact value when that is in range |
| Config.ParseIntSafe | config/config.go:139-149 | the loop gives the accumulated digits, 0 for "" or any non-digit, and the decimal value of any digit string that fits in 64 bits |
| Config.ParsedIntExamples | config/config.go:139-149 | "0" and "12a" parse to 0, "200" to 200 |
| Config.GetEnvOrDefault | config/config.go:116-121 | a non-empty variable, else the default; an empty value counts as unset |
| Config.GetEnvBoolOrDefault | config/config.go:123-128 | an unset or empty variable keeps the default; any other value is true exactly when it is "true" in any case |
| Config.GetEnvIntOrDefault | config/config.go:130-137 | the parsed value when it is positive, else the default |
| Config.GetDefault | config/config.go:67-93 | debug and console for local or development, info and JSON otherwise; service name, file path and 100/30/3 rotation limits shared |
| Config.LoadFromEnv | config/config.go:42-65 | each field from its `BLOGGER_*` variable or the environment's default; local and development force console output at debug; every rotation limit positive; with every variable set and a non-local environment, exactly those values |
| Config.ApplyEnvOverrides | config/config.go:95-114 | only the six named fields change, each only for a non-empty variable; the rotation limits never change |
| Config.NoVariablesNoOverride | config/config.go:95-114 | with no variable set the overrides keep every field |
| Config.LoadFromFile | config/config.go:27-40 | read and decode failures come back with their prefixes; a decoded config goes through the environment overrides: the six overridable fields follow their variables, the rotation limits are kept |
| Zap.GetZapLogLevel | logger/zap_logger.go:74-91 | each of the six level names selects its own level; every other string selects Info |
| Zap.LevelNameRoundTrip | logger/zap_logger.go:74-91 | every level's name maps back to that level |
| Zap.UnknownNamesAreInfo | logger/zap_logger.go:89-90 | "", "unknown" and differently-cased names map to Info |
| Zap.KeptFieldsMembers | logger/zap_logger.go:21-23 | a field is kept exactly when it occurs in the input and is neither keyed "skip" nor of type Int64 |
| Zap.KeptFieldsSubsequence | logger/zap_logger.go:19-26 | the kept fields are a subsequence of the input, in its order |
| Zap.KeptFieldsAppend | logger/zap_logger.go:19-25 | filtering a concatenation is the concatenation of the filtered parts |
| Zap.KeptFieldsCount | logger/zap_logger.go:19-25 | a kept field occurs in the result exactly as often as in the input, a dropped field never |
| Zap.KeptFieldsIdempotent | logger/zap_logger.go:19-25 | filtering twice keeps what filtering once does |
| Zap.EncodeEntry | logger/zap_logger.go:18-26 | the loop's `filtered` is the specified filter: exactly the kept fields, in order, no more of them than were given |
| Zap.NewZapLogger | logger/zap_logger.go:29-72 | a file JSON core first when file output is on, a stdout JSON core when JSON is on, exactly one stdout console core when neither is; every core at the configured level |
| Logger.ResolveIdentity | logger/logger.go:40-42 | env, service and version come from DD_ENV, DD_SERVICE and DD_VERSION when non-empty, else from the config or "unknown" |
| Logger.IdentityFromConfig | logger/logger.go:40-42 | without Datadog variables the identity is the config's env and service with version "unknown" |
| Logger.EmptyVariablesAreUnset | logger/logger.go:157-162 | empty Datadog variables count as unset |
| Logger.Globals.Init | logger/logger.go:36-53 | the globals take the resolved identity; the zap logger is built from the config (the file core first exactly when file output is on, a stdout JSON core exactly when JSON is on, and no other core unless neither is on, when it is the single console core; all at the configured level); the returned slog logger becomes the default; the template is compiled |
| Logger.Globals.DefaultConfig | logger/logger.go:109-135 | debug and console for local or development, info and JSON otherwise, with the global service name and the shared file settings |
| Logger.DefaultConfigAgrees | logger/logger.go:109-135 | it agrees with `config.GetDefault` on level, output format and the file settings |
| Logger.Pathfinder.InfoContext | logger/logger.go:145-147 | an Info record whose message is `[service][svc] ` followed by the message |
| Logger.Pathfinder.ErrorContext | logger/logger.go:149-151 | an Error record whose message is `[service][svc] ` followed by the message |
| Logger.Pathfinder.NewPathfinder | logger/logger.go:153-155 | the child's name is the parent's, a dot, and the child |
| Logger.NewPathfinder | logger/logger.go:141-143 | a pathfinder for the given service name |
| Logger.DescendJoinsWithDots | logger/logger.go:141-155 | nesting pathfinders gives the dot-joined name |
| Logger.NestedPathfinderMessage | logger/logger.go:145-155 | the message of a three-times nested pathfinder is `[service][a.b.c.d] ` followed by the message |
| Logger.DDAttrs | logger/logger.go:78-99 | `trace_id` and `span_id` come first, each only when the span context has it; the `dd` group always comes last |
| Logger.DDAttrsTopLevelIds | logger/logger.go:78-99 | a top-level `trace_id` (or `span_id`) attribute is present exactly when the span context carries that id |
| Logger.NoSpanFields | logger/logger.go:78-99 | without a span the only field is the `dd` group with empty trace and span ids |
| Logger.PendingRecord.AddAttrs | logger/logger.go:84-97 | appends the attributes and leaves level and message alone |
| Logger.AddDDFields | logger/logger.go:78-99 | the record gains exactly the Datadog attributes of its span and the current identity |
| Logger.WithAttrs | logger/logger.go:101-103 | the handler keeps its enriching wrapper |
| Logger.WithAttrsKeepsDDFields | logger/logger.go:101-103 | records sent through the derived handler still get the Datadog fields |
| Logger.WithGroupDropsDDFields | logger/logger.go:105-107 | as written, the handler `WithGroup` returns is unwrapped, and its records get no Datadog fields |
| Logger.WithGroupKeepingDD | logger/logger.go:105-107 | the corrected `WithGroup` keeps the enriching wrapper |
| Logger.WithGroupKeepingDDFields | logger/logger.go:105-107 | with the corrected `WithGroup`, records still get the Datadog fields |
| Pgx.NewPGXLogger | logger/pgx_logger.go:15-17 | holds the given logger with one extra frame of caller skip |
| Pgx.NewPGXLoggerFromSlog | logger/pgx_logger.go:41-43 | holds the no-op logger |
| Pgx.EmitLevel | logger/pgx_logger.go:25-38 | trace and debug emit at Debug, info, warn and error at their own level, and every other value at Error |
| Pgx.UnmappedLevelsAreErrors | logger/pgx_logger.go:36-37 | `LogLevelNone` and out-of-range values emit at Error |
| Pgx.Log | logger/pgx_logger.go:19-39 | the record has the mapped level, the message unchanged and one attribute per data entry; the receiver's logger plays no part |
| Pgx.DataFields | logger/pgx_logger.go:20-23 | one attribute per data entry, with that key and value, no key twice |
| Pgx.AttrsOfDataKeys | logger/pgx_logger.go:20-23 | the attributes' keys are exactly the data keys |
| Pgx.EmptyDataNoAttrs | logger/pgx_logger.go:20-23 | empty data gives a record without attributes |
| GrpcClient.MaskString | middleware/grpcclient/logging.go:140-143 | two or more characters become first + `*****` + last; one character gets `*****` appended; "" stays "" |
| GrpcClient.MaskValue | middleware/grpcclient/logging.go:137-146 | string values are masked; every other value is left as it is |
| GrpcClient.MaskStringIdempotent | middleware/grpcclient/logging.go:140-143 | masking a masked string (of any length other than one) changes nothing |
| GrpcClient.MaskStringNotIdempotentOnOneChar | middleware/grpcclient/logging.go:142-143 | a one-character value is lengthened by each masking: "x", then "x*****", then "x******" |
| GrpcClient.MaskValueIdempotent | middleware/grpcclient/logging.go:137-146 | masking a masked value changes nothing unless it is a one-character string |
| GrpcClient.MaskExamples | middleware/grpcclient/logging.go:140-143 | "secret123" masks to "s*****3" and "x" to "x*****" |
| GrpcClient.JsonFieldName | middleware/grpcclient/logging.go:133-136 | the map key is the json tag up to its first comma |
| GrpcClient.JsonFieldNameWithOptions | middleware/grpcclient/logging.go:133-136 | a tag with options gives the name before the comma |
| GrpcClient.MaskFieldsEntries | middleware/grpcclient/logging.go:129-147 | the key set never changes, and each entry is masked once for each sensitive field naming it |
| GrpcClient.MaskFieldsSpec | middleware/grpcclient/logging.go:129-147 | keys are neither added nor removed; entries no sensitive field names, and non-string or empty values, are untouched; a named entry is masked |
| GrpcClient.MaskSingleField | middleware/grpcclient/logging.go:130-143 | one field tagged sensitive "true" masks exactly its own entry |
| GrpcClient.MaskSensitiveDataUsingStructTag | middleware/grpcclient/logging.go:118-149 | the loop leaves the map as the specified mask of its old contents over the message's fields; a nil message leaves it unchanged |
| GrpcClient.MaskOneField | middleware/grpcclient/logging.go:129-147 | one pass of the loop masks the named entry of a sensitive field and nothing else |
| GrpcClient.ProtoMessageToMap | middleware/grpcclient/logging.go:97-116 | nil for a nil message; a marshal or unmarshal failure is the error; otherwise the decoded map, masked |
| GrpcClient.LogGRPCClientRequest | middleware/grpcclient/logging.go:45-65 | the request record, preceded by a warning when conversion failed |
| GrpcClient.LogGRPCClientResponse | middleware/grpcclient/logging.go:67-95 | the response record at the level the error decides, with error text and duration |
| GrpcClient.UnaryClientLoggingInterceptor | middleware/grpcclient/logging.go:20-43 | the invoker's error comes back unchanged; the request records come before the response records |
| GrpcClient.ClientRecordLevels | middleware/grpcclient/logging.go:45-95 | the request is logged at Info; the response at Error exactly when the call failed |
| GrpcClient.LoggedBodyIsMasked | middleware/grpcclient/logging.go:97-149 | an entry named by one sensitive field appears masked in the logged body |
| GrpcClient.NilMessageBody | middleware/grpcclient/logging.go:98-100 | a nil message converts to nil, logs as null and adds no warning |
| GrpcServer.ProtoMessageToJsonBytes | middleware/grpcserver/logging.go:86-97 | no bytes and no error for a nil message, else what protojson makes of it |
| GrpcServer.LoggedBody | middleware/grpcserver/logging.go:39-45 | a failed conversion is ignored and logs as no bytes |
| GrpcServer.HintLevel | middleware/grpcserver/logging.go:58-63 | Error exactly when the handler returned an error |
| GrpcServer.ServerLog | middleware/grpcserver/logging.go:72-79 | transport grpc, traffic internal, method POST, the status code of the error, a path of the full method |
| GrpcServer.LoggerInterceptor.Intercept | middleware/grpcserver/logging.go:31-84 | the handler's response and error come back unchanged; the health check is not logged; every other call produces the canonical record |
| GrpcServer.NewUnaryLoggerInterceptor | middleware/grpcserver/logging.go:24-29 | the interceptor's logger gains `logger_name=grpc_interceptor` |
| GrpcServer.GRPCServerInterceptor | middleware/grpcserver/logging.go:99-104 | fails with the not-initialized message exactly when `Slog` is nil |
| GrpcServer.InterceptorAfterInit | middleware/grpcserver/logging.go:99-104 | after `Init` the interceptor is available |
| GrpcServer.FailedCallIsError | middleware/grpcserver/logging.go:58-79 | a failed call is logged at Error with the status code of its error |
| HttpServer.ConvertHeaderAttrToString | middleware/httpserver/logging.go:14-19 | the first value of a present header with values, else "" |
| HttpServer.MissingHeadersAreEmpty | middleware/httpserver/logging.go:14-19 | an empty map, a missing key and an empty value list all give "" |
| HttpServer.SprintStrings | middleware/httpserver/logging.go:70 | `fmt.Sprint` of a string slice is bracketed, "[]" when empty |
| HttpServer.PermissionsExample | middleware/httpserver/logging.go:70 | two permission values print as `[read write]` |
| HttpServer.HintLevel | middleware/httpserver/logging.go:74-79 | Error exactly for a status of 400 or more |
| HttpServer.HttpLog | middleware/httpserver/logging.go:88-95 | transport http, traffic internal, the request's method and path, the response status, an empty message |
| HttpServer.LoggingMiddleware.Logging | middleware/httpserver/logging.go:36-100 | the downstream error and response come back unchanged and the request produces the canonical record; a panic is recovered into a 500 and nothing is logged |
| HttpServer.NewLoggingMiddleware | middleware/httpserver/logging.go:29-34 | the middleware's logger gains `logger_name=http_middleware` |
| HttpServer.HTTPMiddleware | middleware/httpserver/logging.go:102-107 | fails with the not-initialized message exactly when `Slog` is nil |
| HttpServer.StatusDoesNotDecideSeverity | middleware/httpserver/logging.go:74-97 | a 500 response with a nil error has an Error hint but is logged at Info |

## Left out

- Output: slog, zap and lumberjack writing, encoders, `zap.RegisterEncoder` and the zapslog/otelslog handler chain are library wiring. Records are returned instead of written, and a zap core is only its encoder, sink and level.
- `Logger.Globals.Init`: the "Logger initialized" record and `slog.SetDefault` beyond the `defaultSlog` field are not modelled. The mutex in `Init` is not modelled either, because concurrency is out of scope.
- `encoding/json`, protojson and YAML decoding are parameters, not implementations. So are `time.Duration.String` and `time.Since`.
- `Canonical.CanonicalLogger`: the template execution error ("failed to execute canonical log template") is not modelled. The fixed template over these fields cannot fail to execute.
- `Canonical.CanonicalLogger`: the message is built as a string, not in a `strings.Builder`.
- Canonical summary rendering: how html/template renders `Status` and `Duration` is not separately escaped. Digits are plain text, and the duration's text comes from its parameter and is escaped.
- `status_code` and the error fields in the gRPC client records are attribute values, not slog's rendering of `slog.Any`.
- Strings are sequences of characters. `strings.ToLower` is ASCII-only here, and byte versus rune indexing in the masker is not distinguished.
- `GrpcClient.MaskSensitiveDataUsingStructTag`: reflection over struct tags becomes an explicit list of field descriptors, and the map key is the json tag. The property that protojson output is keyed by the json tag is not modelled.
- `GrpcClient.MaskValueIdempotent`: stated for values other than one-character strings. The code lengthens such a value each time it masks it (`GrpcClient.MaskStringNotIdempotentOnOneChar`).
- `Config.ApplyEnvOverrides`: modelled on values. It returns the overridden config instead of writing through the `*LogConfig` pointer, so aliasing of the pointer is not captured.
- The Fiber context, gRPC call options and the header call option are not modelled. The received metadata is a parameter of the invocation.
- `HttpServer.LoggingMiddleware.Logging`: `c.SetUserContext` is not modelled.
- `HttpServer.LoggingMiddleware.Logging`: on a downstream panic the code recovers into a 500 JSON response. The deferred recover sets that response and returns a nil error, so the code after `c.Next()` that logs never runs and no canonical record is produced.
- The HTTP and gRPC server adapters do not model a panic before `Init`. `HTTPMiddleware` and `GRPCServerInterceptor` return it as an error result carrying the panic's message.
- The `getEnvOrDefault` of `logger/logger.go:157-162` is the same rule as the one in `config/config.go:116-121`. It is modelled once, as `Config.GetEnvOrDefault`.
- `GrpcServer.LoggerInterceptor.Intercept`, `Canonical.StatusCode`: a typed nil `*ExceptionError` is given status 2 and a canonical record. That assumes a `status.Code` that does not call `Error()` on the error. A grpc-go whose `status.Code` builds `New(codes.Unknown, err.Error())` would call `(*ExceptionError).Error` on the nil receiver (logger/canonical_logger.go:52-54), panic, and produce no record. The grpc-go version is not part of this model.
- The OpenTelemetry span context is a pair of optional ids. Span lookup from a context is not modelled.

## Findings

| source | as written | input that shows it | evidently intended | confidence | as-written member | corrected member |
|---|---|---|---|---|---|---|
| logger/logger.go:105-107 | `Handler.WithGroup` returns the inner handler's `WithGroup` without the enriching `Handler` wrapper | any `slog.Logger.WithGroup("g")` on the Datadog-enriching handler: its records lose `trace_id`, `span_id` and the `dd` group | keep the wrapper, as `WithAttrs` does at lines 101-103 | not executed | Logger.WithGroupDropsDDFields | Logger.WithGroupKeepingDDFields |
