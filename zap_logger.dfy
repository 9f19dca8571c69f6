/** The zap side of the facade: the field filter of the "cool" encoder, the
    level-name mapping, and which output cores a configuration selects. */
module Zap {
  import opened Common

  datatype ZapLevel = DebugLevel | InfoLevel | WarnLevel | ErrorLevel | PanicLevel | FatalLevel

  /** `getZapLogLevel`: exact lower-case names; anything else is Info. */
  function GetZapLogLevel(level: string): (r: ZapLevel)
    ensures r == DebugLevel <==> level == "debug"
    ensures r == WarnLevel <==> level == "warn"
    ensures r == ErrorLevel <==> level == "error"
    ensures r == PanicLevel <==> level == "panic"
    ensures r == FatalLevel <==> level == "fatal"
    ensures r == InfoLevel <==> level !in {"debug", "warn", "error", "panic", "fatal"}
  {
    match level
    case "debug" => DebugLevel
    case "info" => InfoLevel
    case "warn" => WarnLevel
    case "error" => ErrorLevel
    case "panic" => PanicLevel
    case "fatal" => FatalLevel
    case _ => InfoLevel
  }

  /** The configuration name of each level. */
  function LevelName(l: ZapLevel): string
  {
    match l
    case DebugLevel => "debug"
    case InfoLevel => "info"
    case WarnLevel => "warn"
    case ErrorLevel => "error"
    case PanicLevel => "panic"
    case FatalLevel => "fatal"
  }

  /** Every level is reached from its own name. */
  lemma LevelNameRoundTrip(l: ZapLevel)
    ensures GetZapLogLevel(LevelName(l)) == l
  {
  }

  /** Differently-cased names and the empty string fall back to Info. */
  lemma UnknownNamesAreInfo()
    ensures GetZapLogLevel("") == InfoLevel
    ensures GetZapLogLevel("unknown") == InfoLevel
    ensures GetZapLogLevel("DEBUG") == InfoLevel
    ensures GetZapLogLevel("Error") == InfoLevel
  {
  }

  // ---------------------------------------------------------------------
  // The encoder's field filter

  datatype FieldType = Int64Type | Int32Type | StringType | BoolType | OtherType

  datatype ZapField = ZapField(key: string, fieldType: FieldType, text: string)

  /** A field the encoder passes on: not keyed "skip" and not an Int64. */
  predicate Kept(f: ZapField)
  {
    f.key != "skip" && f.fieldType != Int64Type
  }

  /** The kept fields, in their original order. */
  function KeptFields(fields: seq<ZapField>): (r: seq<ZapField>)
    ensures |r| <= |fields|
  {
    if fields == [] then []
    else KeptFields(fields[..|fields| - 1])
         + (if Kept(fields[|fields| - 1]) then [fields[|fields| - 1]] else [])
  }

  /** `a` is `b` with some elements left out, order kept. */
  predicate IsSubsequence<T(==)>(a: seq<T>, b: seq<T>)
    decreases |b|
  {
    if a == [] then true
    else if b == [] then false
    else if a[|a| - 1] == b[|b| - 1] then IsSubsequence(a[..|a| - 1], b[..|b| - 1])
    else IsSubsequence(a, b[..|b| - 1])
  }

  lemma {:induction false} KeptFieldsMembers(fields: seq<ZapField>)
    ensures forall f :: f in KeptFields(fields) <==> f in fields && Kept(f)
  {
    if fields != [] {
      var init := fields[..|fields| - 1];
      KeptFieldsMembers(init);
      assert fields == init + [fields[|fields| - 1]];
    }
  }

  lemma {:induction false} KeptFieldsSubsequence(fields: seq<ZapField>)
    ensures IsSubsequence(KeptFields(fields), fields)
  {
    if fields != [] {
      var init := fields[..|fields| - 1];
      var last := fields[|fields| - 1];
      KeptFieldsSubsequence(init);
      var r := KeptFields(fields);
      if Kept(last) {
        assert r == KeptFields(init) + [last];
        assert r[..|r| - 1] == KeptFields(init) && r[|r| - 1] == last;
      } else {
        assert r == KeptFields(init);
        SubsequenceDropLast(KeptFields(init), fields);
      }
    }
  }

  /** A subsequence of all but the last element is a subsequence of the whole. */
  lemma {:induction false} SubsequenceDropLast<T>(a: seq<T>, b: seq<T>)
    requires b != [] && IsSubsequence(a, b[..|b| - 1])
    ensures IsSubsequence(a, b)
    decreases |b|, 0
  {
    if a != [] && a[|a| - 1] == b[|b| - 1] {
      SubsequenceInit(a, b[..|b| - 1]);
    }
  }

  /** Dropping the last element of a subsequence keeps it a subsequence. */
  lemma {:induction false} SubsequenceInit<T>(a: seq<T>, c: seq<T>)
    requires a != [] && IsSubsequence(a, c)
    ensures IsSubsequence(a[..|a| - 1], c)
    decreases |c|, 1
  {
    if c != [] {
      if a[|a| - 1] == c[|c| - 1] {
        SubsequenceDropLast(a[..|a| - 1], c);
      } else {
        SubsequenceInit(a, c[..|c| - 1]);
        SubsequenceDropLast(a[..|a| - 1], c);
      }
    }
  }

  /** Filtering distributes over concatenation. */
  lemma {:induction false} KeptFieldsAppend(a: seq<ZapField>, b: seq<ZapField>)
    ensures KeptFields(a + b) == KeptFields(a) + KeptFields(b)
    decreases |b|
  {
    if b != [] {
      var init := b[..|b| - 1];
      var last := b[|b| - 1];
      assert (a + b)[..|a + b| - 1] == a + init;
      assert (a + b)[|a + b| - 1] == last;
      KeptFieldsAppend(a, init);
    } else {
      assert a + b == a;
    }
  }

  /** Every kept field occurs in the result as often as in the input, and a
      dropped field not at all. */
  lemma {:induction false} KeptFieldsCount(fields: seq<ZapField>, f: ZapField)
    ensures multiset(KeptFields(fields))[f] == if Kept(f) then multiset(fields)[f] else 0
  {
    if fields != [] {
      var init := fields[..|fields| - 1];
      var last := fields[|fields| - 1];
      KeptFieldsCount(init, f);
      assert fields == init + [last];
    }
  }

  /** Filtering a second time changes nothing. */
  lemma {:induction false} KeptFieldsIdempotent(fields: seq<ZapField>)
    ensures KeptFields(KeptFields(fields)) == KeptFields(fields)
  {
    if fields != [] {
      var init := fields[..|fields| - 1];
      var last := fields[|fields| - 1];
      KeptFieldsIdempotent(init);
      var r := KeptFields(fields);
      if Kept(last) {
        assert r == KeptFields(init) + [last];
        assert r[..|r| - 1] == KeptFields(init) && r[|r| - 1] == last;
      } else {
        assert r == KeptFields(init);
      }
    }
  }

  /** `CoolEncoder.EncodeEntry`: the fields handed on to the JSON encoder. */
  method EncodeEntry(fields: seq<ZapField>) returns (filtered: seq<ZapField>)
    ensures filtered == KeptFields(fields)
    ensures forall f :: f in filtered <==> f in fields && Kept(f)
    ensures IsSubsequence(filtered, fields) && |filtered| <= |fields|
  {
    filtered := [];
    var i := 0;
    while i < |fields|
      invariant 0 <= i <= |fields|
      invariant filtered == KeptFields(fields[..i])
    {
      var field := fields[i];
      assert fields[..i + 1][..i] == fields[..i];
      if field.key == "skip" || field.fieldType == Int64Type {
        i := i + 1;
        continue;
      }
      filtered := filtered + [field];
      i := i + 1;
    }
    assert fields[..i] == fields;
    KeptFieldsMembers(fields);
    KeptFieldsSubsequence(fields);
  }

  // ---------------------------------------------------------------------
  // Core selection

  datatype Encoder = JsonEncoder | ConsoleEncoder

  datatype Sink =
    | RotatingFile(path: string, maxSize: int, maxBackups: int, maxAge: int)
    | Stdout

  datatype Core = Core(encoder: Encoder, sink: Sink, level: ZapLevel)

  /** The tee of cores a zap logger writes to. */
  datatype ZapLogger = ZapLogger(cores: seq<Core>)

  function FileCore(config: LoggerConfig): Core
  {
    Core(JsonEncoder, RotatingFile(config.filePath, config.fileSize, config.maxBackups, config.maxAge),
         GetZapLogLevel(config.level))
  }

  /** The core selection of `newZapLogger`: a JSON file core when files are
      enabled, then a JSON stdout core when JSON is asked for; with neither,
      exactly one console core on stdout. */
  method NewZapLogger(config: LoggerConfig) returns (z: ZapLogger)
    ensures |z.cores| >= 1
    ensures forall c :: c in z.cores ==> c.level == GetZapLogLevel(config.level)
    ensures config.fileEnabled ==> z.cores[0] == FileCore(config)
    ensures (FileCore(config) in z.cores) <==> config.fileEnabled
    ensures (Core(JsonEncoder, Stdout, GetZapLogLevel(config.level)) in z.cores) <==> config.useJson
    ensures config.fileEnabled || config.useJson ==>
      |z.cores| == (if config.fileEnabled then 1 else 0) + (if config.useJson then 1 else 0)
    ensures !config.fileEnabled && !config.useJson ==>
      z.cores == [Core(ConsoleEncoder, Stdout, GetZapLogLevel(config.level))]
  {
    var zapLogLevel := GetZapLogLevel(config.level);
    var zapCoreList: seq<Core> := [];
    if config.fileEnabled {
      zapCoreList := zapCoreList + [FileCore(config)];
    }
    if config.useJson {
      zapCoreList := zapCoreList + [Core(JsonEncoder, Stdout, zapLogLevel)];
    }
    if |zapCoreList| == 0 {
      z := ZapLogger([Core(ConsoleEncoder, Stdout, zapLogLevel)]);
    } else {
      z := ZapLogger(zapCoreList);
    }
  }
}
