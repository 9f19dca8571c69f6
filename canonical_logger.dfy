/** The canonical-log assembly pipeline: one structured record per request,
    with the severity resolved from the error, route-based redaction of both
    payloads, exception errors turned into structured groups (first stack
    frame truncated to six segments), a JSON-or-raw-string fallback for the
    payloads, and the fixed-format one-line summary. */
module Canonical {
  import opened Common
  import opened StackTrace

  /** The caller's severity hint: `Level` is an `int` with the bit values
      `1 << iota`, so any other integer can be passed as well. */
  type Level = int

  const Debug: Level := 1
  const Info: Level := 2
  const Warn: Level := 4
  const Error: Level := 8

  datatype StackError = StackError(kind: string, message: string, stack: string)

  /** The domain error; `stackErrors` is `None` for a nil slice, which the
      logger distinguishes from an empty one. */
  datatype ExceptionError = ExceptionError(
    code: int,
    globalMessage: string,
    debugMessage: string,
    apiStatusCode: int,
    errFields: JsonObject,
    overrideLogLevel: bool,
    level: string,
    stackErrors: Option<seq<StackError>>)

  /** A non-nil Go `error` value, by the dynamic type the logging code can see:
      a `*ExceptionError`, a typed nil `*ExceptionError` stored in the
      interface, a gRPC status error, or any other error. */
  datatype ErrorValue =
    | Exception(e: ExceptionError)
    | NilException
    | RpcStatus(code: int, text: string)
    | Opaque(text: string)

  /** `int(status.Code(err))`: OK (0) for no error, the status's own code
      for a gRPC status error, Unknown (2) for any other error. */
  function StatusCode(err: Option<ErrorValue>): (code: int)
    ensures err.None? ==> code == 0
    ensures err.Some? && err.value.RpcStatus? ==> code == err.value.code
    ensures err.Some? && !err.value.RpcStatus? ==> code == 2
  {
    match err
    case None => 0
    case Some(RpcStatus(c, _)) => c
    case Some(_) => 2
  }

  /** The record the adapters fill in; `duration` is in nanoseconds, as a
      `time.Duration`. `logLevel` is carried but never read by the logger. */
  datatype CanonicalLog = CanonicalLog(
    transport: string,
    traffic: string,
    httpMethod: string,
    status: int,
    path: string,
    duration: int,
    message: string,
    logLevel: int)

  /** What the logger needs from its surroundings: the JSON decoder (`None`
      when `json.Unmarshal` into a map fails), `time.Duration.String`, and
      the current value of the package variable `DenyPatterns`. */
  datatype Collaborators = Collaborators(
    parseObject: string -> Option<JsonObject>,
    durationString: int -> string,
    denyPatterns: seq<string>)

  /** `(*ExceptionError).Error`: the debug message. */
  function ErrorText(e: ExceptionError): (r: string)
    ensures r == e.debugMessage
  {
    e.debugMessage
  }

  /** The severity a level is dispatched at; unmapped levels go to Error. */
  function DispatchLevel(level: Level): (r: SlogLevel)
    ensures r == LevelDebug <==> level == Debug
    ensures r == LevelInfo <==> level == Info
    ensures r == LevelWarn <==> level == Warn
    ensures r == LevelError <==> level !in {Debug, Info, Warn}
  {
    if level == Debug then LevelDebug
    else if level == Info then LevelInfo
    else if level == Warn then LevelWarn
    else LevelError
  }

  const UnknownStackError := StackError("unknown", "no stack information available", "")

  /** `GetStackField`: the first frame, or a fixed "unknown" frame. */
  function GetStackField(stackErrors: seq<StackError>): (r: StackError)
    ensures |stackErrors| > 0 ==> r == stackErrors[0]
    ensures |stackErrors| == 0 ==> r == UnknownStackError
  {
    if |stackErrors| > 0 then stackErrors[0] else UnknownStackError
  }

  // ---------------------------------------------------------------------
  // Redaction policy

  const DefaultDenyPatterns: seq<string> :=
    ["login", "refresh-token", "verify-otp", "password", "token", "secret", "key"]

  /** The route key is deny-listed: its lower-cased form contains some pattern. */
  predicate Redacted(logKey: string, denyPatterns: seq<string>)
  {
    exists i | 0 <= i < |denyPatterns| :: Contains(Lower(logKey), denyPatterns[i])
  }

  /** `Sanitize`: scans the deny list in order and stops at the first match. */
  method Sanitize(logKey: string, denyPatterns: seq<string>) returns (b: bool)
    ensures b <==> Redacted(logKey, denyPatterns)
  {
    var lower := Lower(logKey);
    var i := 0;
    while i < |denyPatterns|
      invariant 0 <= i <= |denyPatterns|
      invariant forall j :: 0 <= j < i ==> !Contains(lower, denyPatterns[j])
    {
      if Contains(lower, denyPatterns[i]) {
        return true;
      }
      i := i + 1;
    }
    return false;
  }

  lemma OccursAtIn(s: string, sub: string, i: nat)
    requires i + |sub| <= |s| && s[i..i + |sub|] == sub
    ensures Contains(s, sub)
  {
    assert OccursAt(s, sub, i);
  }

  /** A login route is redacted whatever its case. */
  lemma RedactedUpperCaseLogin()
    ensures Redacted("/api/auth/LOGIN", DefaultDenyPatterns)
  {
    var lower := Lower("/api/auth/LOGIN");
    assert lower == "/api/auth/login";
    assert DefaultDenyPatterns[0] == "login";
    OccursAtIn(lower, "login", 10);
  }

  /** A pattern one of whose characters never appears in `s` does not occur in it. */
  lemma NotContainsByChar(s: string, sub: string, k: nat)
    requires k < |sub|
    requires forall j :: 0 <= j < |s| ==> s[j] != sub[k]
    ensures !Contains(s, sub)
  {
    forall i | 0 <= i <= |s| - |sub|
      ensures !OccursAt(s, sub, i)
    {
      assert s[i..i + |sub|][k] == s[i + k];
    }
  }

  /** Every default pattern holds one of the letters n, v, w, c, k, so a route
      key without any of them is never redacted. */
  lemma NotRedactedWithoutLetters(logKey: string)
    requires forall j :: 0 <= j < |logKey| ==> LowerChar(logKey[j]) !in "nvwck"
    ensures !Redacted(logKey, DefaultDenyPatterns)
  {
    var lower := Lower(logKey);
    NotContainsByChar(lower, "login", 4);
    NotContainsByChar(lower, "refresh-token", 12);
    NotContainsByChar(lower, "verify-otp", 0);
    NotContainsByChar(lower, "password", 4);
    NotContainsByChar(lower, "token", 4);
    NotContainsByChar(lower, "secret", 2);
    NotContainsByChar(lower, "key", 0);
  }

  /** The health and profile routes of the tests are not redacted. */
  lemma HealthAndProfileNotRedacted()
    ensures !Redacted("/health", DefaultDenyPatterns)
    ensures !Redacted("/api/user/profile", DefaultDenyPatterns)
  {
    NotRedactedWithoutLetters("/health");
    NotRedactedWithoutLetters("/api/user/profile");
  }

  // ---------------------------------------------------------------------
  // Payload normalisation and the structured fields

  /** A payload as one attribute: the decoded object, or the raw text. */
  function NormalizePayload(key: string, raw: string, parseObject: string -> Option<JsonObject>): (a: Attr)
    ensures a.key == key
    ensures parseObject(raw).Some? ==> a.value == Object(parseObject(raw).value)
    ensures parseObject(raw).None? ==> a.value == Str(raw)
  {
    match parseObject(raw)
    case Some(obj) => Attr(key, Object(obj))
    case None => Attr(key, Str(raw))
  }

  const RedactedRequest := Attr("request", Str("REDACTED"))
  const RedactedResponse := Attr("response", Str("REDACTED"))
  const LoggerNameAttr := Attr("logger_name", Str("canonical"))

  /** The `error` group built from a stack frame whose stack is already truncated. */
  function StackGroup(frame: StackError): Attr
  {
    Attr("error", Group([
      Attr("kind", Str(frame.kind)),
      Attr("message", Str(frame.message)),
      Attr("stack", Str(frame.stack))]))
  }

  /** The `response` group for an exception error. */
  function ExceptionResponseGroup(e: ExceptionError): Attr
  {
    Attr("response", Group([
      Attr("status_code", Int(e.apiStatusCode)),
      Attr("data", Null),
      Attr("error", Group([
        Attr("code", Int(e.code)),
        Attr("message", Str(e.globalMessage)),
        Attr("debug_message", Str(e.debugMessage)),
        Attr("details", Object(e.errFields))]))]))
  }

  /** The frame reported for an exception error: the first one, stack truncated. */
  function ReportedFrame(stackErrors: seq<StackError>): (f: StackError)
    ensures |stackErrors| == 0 ==> f == UnknownStackError
    ensures |stackErrors| > 0 ==>
      f.kind == stackErrors[0].kind && f.message == stackErrors[0].message &&
      f.stack == TruncateStack(stackErrors[0].stack)
  {
    var frame := GetStackField(stackErrors);
    frame.(stack := TruncateStack(frame.stack))
  }

  /** The response fields before redaction, by the shape of the error. */
  function ResponseFields(err: Option<ErrorValue>, response: string, parseObject: string -> Option<JsonObject>): (fs: seq<Attr>)
  {
    match err
    case Some(Exception(e)) =>
      (if e.stackErrors.Some? then [StackGroup(ReportedFrame(e.stackErrors.value))] else [])
      + [ExceptionResponseGroup(e)]
    case _ => [NormalizePayload("response", response, parseObject)]
  }

  /** An exception error yields its `response` group last, preceded by an
      `error` group exactly when its stack list is non-nil; an empty non-nil
      list reports the "unknown" frame. */
  lemma ExceptionFields(e: ExceptionError, response: string, parseObject: string -> Option<JsonObject>)
    ensures var fs := ResponseFields(Some(Exception(e)), response, parseObject);
      && |fs| == (if e.stackErrors.Some? then 2 else 1)
      && fs[|fs| - 1] == ExceptionResponseGroup(e)
      && (e.stackErrors == Some([]) ==> fs[0] == StackGroup(UnknownStackError))
  {
  }

  /** Any error that is not a non-nil `*ExceptionError`, and the nil error,
      yield the normalised response payload alone. */
  lemma OtherErrorFields(err: Option<ErrorValue>, response: string, parseObject: string -> Option<JsonObject>)
    requires err.None? || !err.value.Exception?
    ensures ResponseFields(err, response, parseObject) == [NormalizePayload("response", response, parseObject)]
  {
  }

  /** The record after the logger has overwritten its message. */
  function WithErrorMessage(log: CanonicalLog, err: Option<ErrorValue>): (r: CanonicalLog)
    ensures err.Some? && err.value.Exception? ==> r == log.(message := ErrorText(err.value.e))
    ensures !(err.Some? && err.value.Exception?) ==> r == log
  {
    match err
    case Some(Exception(e)) => log.(message := e.debugMessage)
    case _ => log
  }

  // ---------------------------------------------------------------------
  // The summary line

  const LogTemplateText := "[{{.Transport}}][{{.Traffic}}] {{.Method}} {{.Status}} {{.Path}} {{.Duration}} - {{.Message}}"

  /** A compiled `html/template`. */
  datatype Template = Template(name: string, text: string)

  /** The package variable `canonicalLogTemplate`, nil until compiled. */
  class TemplateSlot {
    var compiled: bool

    constructor ()
      ensures !compiled
    {
      compiled := false;
    }

    /** `CompileCanonicalLogTemplate`: the fixed template always parses. */
    method Compile()
      modifies this
      ensures compiled
    {
      compiled := true;
    }

    /** `GetCanonicalLogTemplate`. */
    method Get() returns (r: Result<Template, string>)
      ensures r.Ok? <==> compiled
      ensures r.Ok? ==> r.value == Template("log_template", LogTemplateText)
      ensures r.Err? ==> r.error == "canonicalLogTemplate is nil"
    {
      if compiled {
        r := Ok(Template("log_template", LogTemplateText));
      } else {
        r := Err("canonicalLogTemplate is nil");
      }
    }
  }

  /** How `html/template` escapes one character of interpolated text. */
  function EscapeChar(c: char): string
  {
    if c == 0 as char then "�"
    else if c == '"' then "&#34;"
    else if c == '&' then "&amp;"
    else if c == '\'' then "&#39;"
    else if c == '+' then "&#43;"
    else if c == '<' then "&lt;"
    else if c == '>' then "&gt;"
    else [c]
  }

  /** A character `html/template` leaves alone. */
  predicate PlainChar(c: char)
  {
    c != 0 as char && c != '"' && c != '&' && c != '\'' && c != '+' && c != '<' && c != '>'
  }

  /** Escaping of an interpolated value. */
  function Escape(s: string): string
  {
    if s == [] then [] else EscapeChar(s[0]) + Escape(s[1..])
  }

  /** Text without special characters is interpolated unchanged. */
  lemma {:induction false} EscapePlain(s: string)
    requires forall i :: 0 <= i < |s| ==> PlainChar(s[i])
    ensures Escape(s) == s
  {
    if s != [] {
      EscapePlain(s[1..]);
    }
  }

  /** The template executed over a record: every field interpolated, escaped. */
  function Render(log: CanonicalLog, durationString: int -> string): string
  {
    "[" + Escape(log.transport) + "][" + Escape(log.traffic) + "] "
    + Escape(log.httpMethod) + " " + Escape(IntToString(log.status)) + " "
    + Escape(log.path) + " " + Escape(durationString(log.duration))
    + " - " + Escape(log.message)
  }

  /** With plain fields the summary is exactly `[T][Tr] M S P D - Msg`. */
  lemma RenderPlain(log: CanonicalLog, durationString: int -> string)
    requires forall i :: 0 <= i < |log.transport| ==> PlainChar(log.transport[i])
    requires forall i :: 0 <= i < |log.traffic| ==> PlainChar(log.traffic[i])
    requires forall i :: 0 <= i < |log.httpMethod| ==> PlainChar(log.httpMethod[i])
    requires forall i :: 0 <= i < |log.path| ==> PlainChar(log.path[i])
    requires forall i :: 0 <= i < |log.message| ==> PlainChar(log.message[i])
    requires var d := durationString(log.duration); forall i :: 0 <= i < |d| ==> PlainChar(d[i])
    ensures Render(log, durationString) ==
      "[" + log.transport + "][" + log.traffic + "] " + log.httpMethod + " "
      + IntToString(log.status) + " " + log.path + " "
      + durationString(log.duration) + " - " + log.message
  {
    EscapePlain(log.transport);
    EscapePlain(log.traffic);
    EscapePlain(log.httpMethod);
    EscapePlain(log.path);
    EscapePlain(log.message);
    EscapePlain(durationString(log.duration));
    IntToStringPlain(log.status);
  }

  /** A printed integer has no character the template escapes. */
  lemma IntToStringPlain(n: int)
    ensures Escape(IntToString(n)) == IntToString(n)
  {
    var st := IntToString(n);
    forall i | 0 <= i < |st| ensures PlainChar(st[i]) {
      if n < 0 && i > 0 {
        assert st[i] == NatToString(-n)[i - 1];
      }
    }
    EscapePlain(st);
  }

  // The lemmas from here to `RenderExample` only work out the concrete
  // summary of the template test; they are scaffolding, not properties.

  lemma TwoHundred()
    ensures IntToString(200) == "200"
  {
    assert NatToString(2) == "2";
    assert NatToString(20) == "20";
  }

  /** The pieces of the test summary up to the status, concatenated left to right. */
  lemma ExampleSummaryHead()
    ensures "[" + "HTTP" + "][" + "incoming" + "] " + "GET" + " " + "200" + " "
            == "[HTTP][incoming] GET 200 "
  {
    assert "[" + "HTTP" == "[HTTP";
    assert "[HTTP" + "][" == "[HTTP][";
    assert "[HTTP][" + "incoming" == "[HTTP][incoming";
    assert "[HTTP][incoming" + "] " == "[HTTP][incoming] ";
    assert "[HTTP][incoming] " + "GET" == "[HTTP][incoming] GET";
    assert "[HTTP][incoming] GET" + " " == "[HTTP][incoming] GET ";
    assert "[HTTP][incoming] GET " + "200" == "[HTTP][incoming] GET 200";
  }

  /** The pieces of the test summary from the path on. */
  lemma ExampleSummaryTail()
    ensures "/api/users" + " " + "150ms" + " - " + "Success" == "/api/users 150ms - Success"
  {
    assert "/api/users" + " " == "/api/users ";
    assert "/api/users " + "150ms" == "/api/users 150ms";
    assert "/api/users 150ms" + " - " == "/api/users 150ms - ";
  }

  /** Concatenation regrouped: the tail pieces joined first. */
  lemma ConcatRegroup(h: string, a: string, b: string, c: string, d: string, e: string)
    ensures h + a + b + c + d + e == h + (a + b + c + d + e)
  {
  }

  /** The two halves of the test summary. */
  lemma ExampleSummaryJoin()
    ensures "[HTTP][incoming] GET 200 " + "/api/users 150ms - Success"
            == "[HTTP][incoming] GET 200 /api/users 150ms - Success"
  {
  }

  /** The pieces of the test summary concatenated left to right. */
  lemma ExampleSummaryText()
    ensures "[" + "HTTP" + "][" + "incoming" + "] " + "GET" + " " + "200" + " " + "/api/users" + " "
        + "150ms" + " - " + "Success" == "[HTTP][incoming] GET 200 /api/users 150ms - Success"
  {
    ExampleSummaryHead();
    ExampleSummaryTail();
    ConcatRegroup("[" + "HTTP" + "][" + "incoming" + "] " + "GET" + " " + "200" + " ",
                  "/api/users", " ", "150ms", " - ", "Success");
    ExampleSummaryJoin();
  }

  /** The summary of the template test: 150ms is what `Duration.String` prints. */
  lemma RenderExample(durationString: int -> string)
    requires durationString(150_000_000) == "150ms"
    ensures Render(CanonicalLog("HTTP", "incoming", "GET", 200, "/api/users", 150_000_000, "Success", 0), durationString)
            == "[HTTP][incoming] GET 200 /api/users 150ms - Success"
  {
    var log := CanonicalLog("HTTP", "incoming", "GET", 200, "/api/users", 150_000_000, "Success", 0);
    TwoHundred();
    assert forall i :: 0 <= i < |log.transport| ==> PlainChar(log.transport[i]);
    assert forall i :: 0 <= i < |log.traffic| ==> PlainChar(log.traffic[i]);
    assert forall i :: 0 <= i < |log.httpMethod| ==> PlainChar(log.httpMethod[i]);
    assert forall i :: 0 <= i < |log.path| ==> PlainChar(log.path[i]);
    assert forall i :: 0 <= i < |log.message| ==> PlainChar(log.message[i]);
    assert durationString(log.duration) == "150ms";
    RenderPlain(log, durationString);
    ExampleSummaryText();
  }

  // ---------------------------------------------------------------------
  // The assembler

  /** Lines 89-131 of the assembler: the severity, the response fields and
      the message, by the shape of the error. */
  method ClassifyError(err: Option<ErrorValue>, response: string, parseObject: string -> Option<JsonObject>,
                       log: CanonicalLog)
    returns (lvl: Level, respFields: seq<Attr>, logOut: CanonicalLog)
    ensures lvl == (if err.None? then Info else Error)
    ensures respFields == ResponseFields(err, response, parseObject)
    ensures logOut == WithErrorMessage(log, err)
  {
    logOut := log;
    respFields := [];
    if err.Some? {
      lvl := Error;
      match err.value {
        case Exception(e) =>
          if e.stackErrors.Some? {
            var frame := GetStackField(e.stackErrors.value);
            frame := frame.(stack := TruncateStack(frame.stack));
            respFields := respFields + [StackGroup(frame)];
          }
          respFields := respFields + [ExceptionResponseGroup(e)];
          logOut := logOut.(message := e.debugMessage);
        case _ =>
          respFields := respFields + [NormalizePayload("response", response, parseObject)];
      }
    } else {
      lvl := Info;
      respFields := respFields + [NormalizePayload("response", response, parseObject)];
    }
  }

  /** The one record the assembler emits for a request. The severity is
      Info on a nil error and Error otherwise, whatever the hint; a redacted
      route replaces both payload fields by "REDACTED"; the fields are the
      request, the response fields, `logger_name`, and the `md` group, after
      the logger's own attributes; the message is the rendered summary, or
      the fallback text when no template is compiled. */
  predicate Assembled(rec: Record, compiled: bool, io: Collaborators, slogger: SlogLogger,
                      request: string, response: string, err: Option<ErrorValue>,
                      canonicalLog: CanonicalLog, metadata: seq<Attr>)
  {
    && rec.level == (if err.None? then LevelInfo else LevelError)
    && (Redacted(canonicalLog.path, io.denyPatterns) ==>
          rec.attrs == slogger.attrs + [RedactedRequest, RedactedResponse, LoggerNameAttr, Attr("md", Group(metadata))])
    && (!Redacted(canonicalLog.path, io.denyPatterns) ==>
          rec.attrs == slogger.attrs + [NormalizePayload("request", request, io.parseObject)]
                       + ResponseFields(err, response, io.parseObject)
                       + [LoggerNameAttr, Attr("md", Group(metadata))])
    && (!compiled ==> rec.message == "failed to get canonical log template")
    && (compiled ==> rec.message == Render(WithErrorMessage(canonicalLog, err), io.durationString))
  }

  /** `CanonicalLogger`. */
  method CanonicalLogger(slot: TemplateSlot, io: Collaborators, slogger: SlogLogger, level: Level,
                         request: string, response: string, err: Option<ErrorValue>,
                         canonicalLog: CanonicalLog, metadata: seq<Attr>)
    returns (rec: Record)
    ensures Assembled(rec, slot.compiled, io, slogger, request, response, err, canonicalLog, metadata)
  {
    var log := canonicalLog;
    var reqFields := [NormalizePayload("request", request, io.parseObject)];
    var shouldSanitize := Sanitize(log.path, io.denyPatterns);
    if shouldSanitize {
      reqFields := [RedactedRequest];
    }

    var lvl, respFields;
    lvl, respFields, log := ClassifyError(err, response, io.parseObject, log);

    if shouldSanitize {
      respFields := [RedactedResponse];
    }

    var mdFields := [LoggerNameAttr, Attr("md", Group(metadata))];

    var logMsg: string;
    var tmpl := slot.Get();
    if tmpl.Err? {
      logMsg := "failed to get canonical log template";
    } else {
      logMsg := Render(log, io.durationString);
    }

    var fields := reqFields + respFields + mdFields;
    rec := Record(DispatchLevel(lvl), logMsg, slogger.attrs + fields);
  }

  /** An exception error's debug message, i.e. its `Error()` text, ends the summary. */
  lemma SummaryCarriesErrorText(log: CanonicalLog, e: ExceptionError, durationString: int -> string)
    ensures var r := Render(WithErrorMessage(log, Some(Exception(e))), durationString);
            var tail := " - " + Escape(ErrorText(e));
            |tail| <= |r| && r[|r| - |tail|..] == tail
  {
    var m := WithErrorMessage(log, Some(Exception(e)));
    var head := "[" + Escape(m.transport) + "][" + Escape(m.traffic) + "] "
      + Escape(m.httpMethod) + " " + Escape(IntToString(m.status)) + " "
      + Escape(m.path) + " " + Escape(durationString(m.duration));
    var tail := " - " + Escape(ErrorText(e));
    assert m.message == ErrorText(e);
    assert Render(m, durationString) == head + tail;
    assert (head + tail)[|head|..] == tail;
  }
}
