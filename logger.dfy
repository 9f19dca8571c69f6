/** The logger package's process-wide state and helpers: the identity and
    sinks `Init` installs, the default configuration, the pathfinder message
    prefixes, the Datadog fields the enriching handler adds to every record,
    and how that handler treats `WithAttrs` and `WithGroup`. */
module Logger {
  import opened Common
  import Config
  import Zap
  import Canonical

  /** The service identity every record's `dd` group reports. */
  datatype Identity = Identity(env: string, service: string, version: string)

  /** Identity resolution in `Init`: a non-empty DD_ENV, DD_SERVICE or
      DD_VERSION wins over the configuration (and over "unknown" for the
      version). `getEnvOrDefault` of this package behaves exactly as the
      configuration package's one and is modelled by `Config.GetEnvOrDefault`. */
  function ResolveIdentity(config: LoggerConfig, environ: Config.Environment): (id: Identity)
    ensures Config.Getenv(environ, "DD_ENV") != "" ==> id.env == environ["DD_ENV"]
    ensures Config.Getenv(environ, "DD_ENV") == "" ==> id.env == config.env
    ensures Config.Getenv(environ, "DD_SERVICE") != "" ==> id.service == environ["DD_SERVICE"]
    ensures Config.Getenv(environ, "DD_SERVICE") == "" ==> id.service == config.serviceName
    ensures Config.Getenv(environ, "DD_VERSION") != "" ==> id.version == environ["DD_VERSION"]
    ensures Config.Getenv(environ, "DD_VERSION") == "" ==> id.version == "unknown"
  {
    Identity(
      Config.GetEnvOrDefault(environ, "DD_ENV", config.env),
      Config.GetEnvOrDefault(environ, "DD_SERVICE", config.serviceName),
      Config.GetEnvOrDefault(environ, "DD_VERSION", "unknown"))
  }

  /** Without any DD_* variable the identity is the configuration's, at version "unknown". */
  lemma IdentityFromConfig(config: LoggerConfig, environ: Config.Environment)
    requires "DD_ENV" !in environ && "DD_SERVICE" !in environ && "DD_VERSION" !in environ
    ensures ResolveIdentity(config, environ) == Identity(config.env, config.serviceName, "unknown")
  {
  }

  /** An empty DD_* variable counts as unset. */
  lemma EmptyVariablesAreUnset(config: LoggerConfig)
    ensures ResolveIdentity(config, map["DD_ENV" := "", "DD_SERVICE" := "", "DD_VERSION" := ""])
            == Identity(config.env, config.serviceName, "unknown")
  {
  }

  /** The package globals `Env`, `ServiceName`, `Version`, `Log`, `Slog`,
      the slog default logger and the compiled canonical template. */
  class Globals {
    var env: string
    var serviceName: string
    var version: string
    var log: Option<Zap.ZapLogger>
    var slog: Option<SlogLogger>
    var defaultSlog: Option<SlogLogger>
    const template: Canonical.TemplateSlot

    constructor (template: Canonical.TemplateSlot)
      ensures this.template == template
      ensures env == "" && serviceName == "" && version == ""
      ensures log.None? && slog.None? && defaultSlog.None?
    {
      this.template := template;
      env, serviceName, version := "", "", "";
      log, slog, defaultSlog := None, None, None;
    }

    function CurrentIdentity(): Identity
      reads this
    {
      Identity(env, serviceName, version)
    }

    /** `Init`: resolves the identity, installs the zap logger and the slog
        logger (also as the slog default) and compiles the canonical template. */
    method Init(config: LoggerConfig, environ: Config.Environment) returns (s: SlogLogger)
      modifies this, template
      ensures CurrentIdentity() == ResolveIdentity(config, environ)
      ensures log.Some? && |log.value.cores| >= 1
      ensures forall c :: c in log.value.cores ==> c.level == Zap.GetZapLogLevel(config.level)
      ensures (Zap.FileCore(config) in log.value.cores) <==> config.fileEnabled
      ensures config.fileEnabled ==> log.value.cores[0] == Zap.FileCore(config)
      ensures config.fileEnabled || config.useJson ==>
        |log.value.cores| == (if config.fileEnabled then 1 else 0) + (if config.useJson then 1 else 0)
      ensures (Zap.Core(Zap.JsonEncoder, Zap.Stdout, Zap.GetZapLogLevel(config.level)) in log.value.cores) <==> config.useJson
      ensures !config.fileEnabled && !config.useJson ==>
        log.value.cores == [Zap.Core(Zap.ConsoleEncoder, Zap.Stdout, Zap.GetZapLogLevel(config.level))]
      ensures slog == Some(s) && defaultSlog == Some(s) && s.attrs == []
      ensures template.compiled
    {
      env := Config.GetEnvOrDefault(environ, "DD_ENV", config.env);
      serviceName := Config.GetEnvOrDefault(environ, "DD_SERVICE", config.serviceName);
      version := Config.GetEnvOrDefault(environ, "DD_VERSION", "unknown");
      var zapLogger := Zap.NewZapLogger(config);
      log := Some(zapLogger);
      s := SlogLogger([]);
      slog := Some(s);
      defaultSlog := Some(s);
      template.Compile();
    }

    /** `getDefaultConfig`: debug console output for local and development,
        info JSON output otherwise, named after the current global service
        name. */
    function DefaultConfig(env: string): (c: LoggerConfig)
      reads this
      ensures c.env == env && c.serviceName == serviceName
      ensures c.level == (if Config.IsLocal(env) then "debug" else "info")
      ensures c.useJson <==> !Config.IsLocal(env)
      ensures !c.fileEnabled && c.filePath == "logs/app.log"
      ensures c.fileSize == 100 && c.maxAge == 30 && c.maxBackups == 3
    {
      if env == "local" || env == "development" then
        LoggerConfig(env, serviceName, "debug", false, false, "logs/app.log", 100, 30, 3)
      else
        LoggerConfig(env, serviceName, "info", true, false, "logs/app.log", 100, 30, 3)
    }
  }

  /** The logger's default configuration agrees with the configuration
      package's defaults in every field but the service name. */
  lemma DefaultConfigAgrees(g: Globals, env: string)
    ensures var d := g.DefaultConfig(env);
            var c := Config.GetDefault(env);
            && d.env == c.env && d.level == c.level && d.useJson == c.useJson
            && d.fileEnabled == c.fileEnabled && d.filePath == c.filePath
            && d.fileSize == c.fileSize && d.maxAge == c.maxAge && d.maxBackups == c.maxBackups
            && d.serviceName == g.serviceName
  {
  }

  // ---------------------------------------------------------------------
  // Pathfinder

  /** A named position in the service, used as a message prefix. */
  datatype Pathfinder = Pathfinder(svc: string)
  {
    function Prefix(): string
    {
      "[service][" + svc + "] "
    }

    /** `InfoContext`, as the record the slog default logger receives. */
    function InfoContext(msg: string, fields: seq<Attr>): (r: Record)
      ensures r.level == LevelInfo && r.attrs == fields
      ensures |r.message| == |Prefix()| + |msg|
      ensures r.message[..|Prefix()|] == Prefix() && r.message[|Prefix()|..] == msg
    {
      Record(LevelInfo, Prefix() + msg, fields)
    }

    /** `ErrorContext`, as the record the slog default logger receives. */
    function ErrorContext(msg: string, fields: seq<Attr>): (r: Record)
      ensures r.level == LevelError && r.attrs == fields
      ensures |r.message| == |Prefix()| + |msg|
      ensures r.message[..|Prefix()|] == Prefix() && r.message[|Prefix()|..] == msg
    {
      Record(LevelError, Prefix() + msg, fields)
    }

    /** The method `NewPathfinder`: a child one dot deeper. */
    function NewPathfinder(child: string): (p: Pathfinder)
      ensures |p.svc| == |svc| + 1 + |child|
      ensures p.svc[..|svc|] == svc && p.svc[|svc|] == '.' && p.svc[|svc| + 1..] == child
    {
      Pathfinder(svc + "." + child)
    }
  }

  /** The free function `NewPathfinder`. */
  function NewPathfinder(svc: string): (p: Pathfinder)
    ensures p.svc == svc
  {
    Pathfinder(svc)
  }

  /** Creating children for `names`, one after the other. */
  function Descend(p: Pathfinder, names: seq<string>): Pathfinder
    decreases |names|
  {
    if names == [] then p else Descend(p.NewPathfinder(names[0]), names[1..])
  }

  lemma JoinFold(x: string, y: string, rest: seq<string>, sep: string)
    ensures JoinWith([x + sep + y] + rest, sep) == x + sep + JoinWith([y] + rest, sep)
  {
    if rest != [] {
      assert ([x + sep + y] + rest)[1..] == rest;
      assert ([y] + rest)[1..] == rest;
    }
  }

  /** Nested pathfinders carry the dot-joined names of the whole path. */
  lemma {:induction false} DescendJoinsWithDots(root: string, names: seq<string>)
    ensures Descend(NewPathfinder(root), names).svc == JoinWith([root] + names, ".")
    decreases |names|
  {
    if names == [] {
    } else {
      var child := root + "." + names[0];
      DescendJoinsWithDots(child, names[1..]);
      JoinFold(root, names[0], names[1..], ".");
      assert [names[0]] + names[1..] == names;
      assert ([root] + names)[1..] == names;
    }
  }

  /** The pathfinder messages of the four-level path a.b.c.d. */
  lemma NestedPathfinderMessage(msg: string)
    ensures Descend(NewPathfinder("a"), ["b", "c", "d"]).InfoContext(msg, []).message
            == "[service][a.b.c.d] " + msg
  {
    DescendJoinsWithDots("a", ["b", "c", "d"]);
    assert ["a"] + ["b", "c", "d"] == ["a", "b", "c", "d"];
    assert JoinWith(["d"], ".") == "d";
    assert JoinWith(["c", "d"], ".") == "c.d";
    assert JoinWith(["b", "c", "d"], ".") == "b.c.d";
  }

  // ---------------------------------------------------------------------
  // Datadog enrichment

  /** The trace and span ids of the span in the context, when it has them
      (already in their hexadecimal text form). */
  datatype SpanContext = SpanContext(traceId: Option<string>, spanId: Option<string>)

  function IdText(id: Option<string>): (t: string)
    ensures id.None? ==> t == ""
    ensures id.Some? ==> t == id.value
  {
    if id.Some? then id.value else ""
  }

  /** The `dd` group. */
  function DDGroup(span: SpanContext, id: Identity): Attr
  {
    Attr("dd", Group([
      Attr("env", Str(id.env)),
      Attr("service", Str(id.service)),
      Attr("trace_id", Str(IdText(span.traceId))),
      Attr("span_id", Str(IdText(span.spanId))),
      Attr("version", Str(id.version))]))
  }

  /** What `AddDDFields` appends: top-level trace and span ids only when the
      span has them, then always the `dd` group. */
  function DDAttrs(span: SpanContext, id: Identity): (attrs: seq<Attr>)
    ensures |attrs| == 1 + (if span.traceId.Some? then 1 else 0) + (if span.spanId.Some? then 1 else 0)
    ensures attrs[|attrs| - 1] == DDGroup(span, id)
    ensures span.traceId.Some? ==> attrs[0] == Attr("trace_id", Str(span.traceId.value))
    ensures span.spanId.Some? ==> attrs[|attrs| - 2] == Attr("span_id", Str(span.spanId.value))
  {
    (if span.traceId.Some? then [Attr("trace_id", Str(span.traceId.value))] else [])
    + (if span.spanId.Some? then [Attr("span_id", Str(span.spanId.value))] else [])
    + [DDGroup(span, id)]
  }

  /** A top-level `trace_id` (`span_id`) is added exactly when the span has one. */
  lemma DDAttrsTopLevelIds(span: SpanContext, id: Identity)
    ensures var attrs := DDAttrs(span, id);
            && ((exists i :: 0 <= i < |attrs| && attrs[i].key == "trace_id") <==> span.traceId.Some?)
            && ((exists i :: 0 <= i < |attrs| && attrs[i].key == "span_id") <==> span.spanId.Some?)
  {
    var attrs := DDAttrs(span, id);
    var n := |attrs|;
    assert attrs[n - 1].key == "dd";
    if span.traceId.Some? {
      assert attrs[0].key == "trace_id";
      assert span.spanId.Some? ==> attrs[1].key == "span_id";
    } else if span.spanId.Some? {
      assert attrs[0].key == "span_id";
    }
  }

  /** Without a span the record gets just the `dd` group, with empty ids. */
  lemma NoSpanFields(id: Identity)
    ensures DDAttrs(SpanContext(None, None), id)
            == [Attr("dd", Group([Attr("env", Str(id.env)), Attr("service", Str(id.service)),
                                  Attr("trace_id", Str("")), Attr("span_id", Str("")),
                                  Attr("version", Str(id.version))]))]
  {
  }

  /** A record being built by a handler: `AddAttrs` appends in place. */
  class PendingRecord {
    var level: SlogLevel
    var message: string
    var attrs: seq<Attr>

    constructor (level: SlogLevel, message: string, attrs: seq<Attr>)
      ensures this.level == level && this.message == message && this.attrs == attrs
    {
      this.level := level;
      this.message := message;
      this.attrs := attrs;
    }

    method AddAttrs(more: seq<Attr>)
      modifies this
      ensures attrs == old(attrs) + more
      ensures level == old(level) && message == old(message)
    {
      attrs := attrs + more;
    }
  }

  /** `AddDDFields`: appends the Datadog attributes for the current identity. */
  method AddDDFields(g: Globals, span: SpanContext, record: PendingRecord)
    modifies record
    ensures record.attrs == old(record.attrs) + DDAttrs(span, g.CurrentIdentity())
    ensures record.level == old(record.level) && record.message == old(record.message)
  {
    var traceID, spanID := "", "";
    if span.traceId.Some? {
      traceID := span.traceId.value;
      record.AddAttrs([Attr("trace_id", Str(traceID))]);
    }
    if span.spanId.Some? {
      spanID := span.spanId.value;
      record.AddAttrs([Attr("span_id", Str(spanID))]);
    }
    record.AddAttrs([Attr("dd", Group([
      Attr("env", Str(g.env)),
      Attr("service", Str(g.serviceName)),
      Attr("trace_id", Str(traceID)),
      Attr("span_id", Str(spanID)),
      Attr("version", Str(g.version))]))]);
  }

  // ---------------------------------------------------------------------
  // The enriching handler

  /** A chain of slog handlers: the zap sink at the bottom, which records the
      attribute and group calls made on it, and the enriching `Handler`
      wrapper around another handler. */
  datatype HandlerCall = WithAttrsCall(attrs: seq<Attr>) | WithGroupCall(name: string)

  datatype SlogHandler =
    | Sink(calls: seq<HandlerCall>)
    | Enriching(inner: SlogHandler)

  /** `Handler.WithAttrs`: the attributes go to the inner handler, which stays wrapped. */
  function WithAttrs(h: SlogHandler, attrs: seq<Attr>): (r: SlogHandler)
    ensures r.Enriching? <==> h.Enriching?
  {
    match h
    case Sink(calls) => Sink(calls + [WithAttrsCall(attrs)])
    case Enriching(inner) => Enriching(WithAttrs(inner, attrs))
  }

  /** `Handler.WithGroup` as written: the inner handler's result is returned
      without the enriching wrapper. */
  function WithGroup(h: SlogHandler, name: string): SlogHandler
  {
    match h
    case Sink(calls) => Sink(calls + [WithGroupCall(name)])
    case Enriching(inner) => WithGroup(inner, name)
  }

  /** `WithGroup` keeping the wrapper, as `WithAttrs` does. */
  function WithGroupKeepingDD(h: SlogHandler, name: string): (r: SlogHandler)
    ensures r.Enriching? <==> h.Enriching?
  {
    match h
    case Sink(calls) => Sink(calls + [WithGroupCall(name)])
    case Enriching(inner) => Enriching(WithGroupKeepingDD(inner, name))
  }

  /** The record the sink at the bottom of the chain receives: every
      enriching wrapper on the way appends the Datadog attributes. */
  function Handle(h: SlogHandler, span: SpanContext, id: Identity, r: Record): Record
  {
    match h
    case Sink(_) => r
    case Enriching(inner) => Handle(inner, span, id, r.(attrs := r.attrs + DDAttrs(span, id)))
  }

  /** The handler `Init` installs, after a `WithAttrs` call, is still the
      enriching wrapper around the sink and enriches every record with
      exactly one `dd` group; so any number of calls keeps it so. */
  lemma {:induction false} WithAttrsKeepsDDFields(calls: seq<HandlerCall>, attrs: seq<Attr>,
                                                   span: SpanContext, id: Identity, r: Record)
    ensures WithAttrs(Enriching(Sink(calls)), attrs) == Enriching(Sink(calls + [WithAttrsCall(attrs)]))
    ensures Handle(WithAttrs(Enriching(Sink(calls)), attrs), span, id, r)
            == r.(attrs := r.attrs + DDAttrs(span, id))
  {
    assert WithAttrs(Enriching(Sink(calls)), attrs) == Enriching(Sink(calls + [WithAttrsCall(attrs)]));
  }

  /** As written, a grouped logger's records reach the sink without the Datadog fields. */
  lemma WithGroupDropsDDFields(calls: seq<HandlerCall>, name: string,
                               span: SpanContext, id: Identity, r: Record)
    ensures WithGroup(Enriching(Sink(calls)), name) == Sink(calls + [WithGroupCall(name)])
    ensures Handle(WithGroup(Enriching(Sink(calls)), name), span, id, r) == r
  {
  }

  /** Keeping the wrapper, a grouped logger's records are enriched as any other. */
  lemma {:induction false} WithGroupKeepingDDFields(calls: seq<HandlerCall>, name: string,
                                                     span: SpanContext, id: Identity, r: Record)
    ensures Handle(WithGroupKeepingDD(Enriching(Sink(calls)), name), span, id, r)
            == r.(attrs := r.attrs + DDAttrs(span, id))
  {
    assert WithGroupKeepingDD(Enriching(Sink(calls)), name) == Enriching(Sink(calls + [WithGroupCall(name)]));
  }
}
