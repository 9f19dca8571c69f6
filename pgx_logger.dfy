/** The pgx tracelog adapter: each database log call becomes one slog record
    on the default logger, at the severity its tracelog level maps to, with
    one attribute per entry of the data map. */
module Pgx {
  import opened Common
  import Zap

  /** `tracelog.LogLevel` values. */
  const LogLevelTrace: int := 6
  const LogLevelDebug: int := 5
  const LogLevelInfo: int := 4
  const LogLevelWarn: int := 3
  const LogLevelError: int := 2
  const LogLevelNone: int := 1

  /** The zap logger a `PGXLogger` holds: the caller's logger with one extra
      frame of caller skip, or the no-op logger. */
  datatype HeldLogger = CallerSkip(logger: Zap.ZapLogger, skip: int) | Nop

  datatype PGXLogger = PGXLogger(logger: HeldLogger)

  /** `NewPGXLogger`. */
  function NewPGXLogger(logger: Zap.ZapLogger): (pl: PGXLogger)
    ensures pl.logger.CallerSkip? && pl.logger.logger == logger && pl.logger.skip == 1
  {
    PGXLogger(CallerSkip(logger, 1))
  }

  /** `NewPGXLoggerFromSlog`. */
  function NewPGXLoggerFromSlog(): (pl: PGXLogger)
    ensures pl.logger.Nop?
  {
    PGXLogger(Nop)
  }

  /** The switch in `Log`: trace and debug go to Debug, info, warn and error
      to their own severity, and every other value to Error. */
  function EmitLevel(level: int): (r: SlogLevel)
    ensures r == LevelDebug <==> level == LogLevelTrace || level == LogLevelDebug
    ensures r == LevelInfo <==> level == LogLevelInfo
    ensures r == LevelWarn <==> level == LogLevelWarn
    ensures r == LevelError <==> !(LogLevelError < level <= LogLevelTrace)
  {
    if level == LogLevelTrace then LevelDebug
    else if level == LogLevelDebug then LevelDebug
    else if level == LogLevelInfo then LevelInfo
    else if level == LogLevelWarn then LevelWarn
    else if level == LogLevelError then LevelError
    else LevelError
  }

  /** `LogLevelNone` and out-of-range values are emitted as errors. */
  lemma UnmappedLevelsAreErrors()
    ensures EmitLevel(LogLevelNone) == LevelError
    ensures EmitLevel(0) == LevelError && EmitLevel(7) == LevelError && EmitLevel(-1) == LevelError
  {
  }

  /** One attribute per data entry: each carries its key and that key's
      value, and no key repeats. */
  ghost predicate AttrsOfData(attrs: seq<Attr>, data: map<string, Json>)
  {
    && |attrs| == |data.Keys|
    && (forall i :: 0 <= i < |attrs| ==> attrs[i].key in data && attrs[i].value == Any(data[attrs[i].key]))
    && (forall i, j :: 0 <= i < j < |attrs| ==> attrs[i].key != attrs[j].key)
    && (forall k :: k in data ==> exists i :: 0 <= i < |attrs| && attrs[i].key == k)
  }

  function KeysOf(attrs: seq<Attr>): (ks: set<string>)
    ensures forall i :: 0 <= i < |attrs| ==> attrs[i].key in ks
    ensures forall k :: k in ks ==> exists i :: 0 <= i < |attrs| && attrs[i].key == k
  {
    if attrs == [] then {} else KeysOf(attrs[..|attrs| - 1]) + {attrs[|attrs| - 1].key}
  }

  /** `(*PGXLogger).Log`: the record handed to the default slog logger. The
      receiver's own zap logger plays no part. */
  method Log(pl: PGXLogger, level: int, msg: string, data: map<string, Json>) returns (rec: Record)
    ensures rec.level == EmitLevel(level) && rec.message == msg
    ensures AttrsOfData(rec.attrs, data)
  {
    var fields := DataFields(data);
    match level {
      case 6 => rec := Record(LevelDebug, msg, fields);
      case 5 => rec := Record(LevelDebug, msg, fields);
      case 4 => rec := Record(LevelInfo, msg, fields);
      case 3 => rec := Record(LevelWarn, msg, fields);
      case 2 => rec := Record(LevelError, msg, fields);
      case _ => rec := Record(LevelError, msg, fields);
    }
  }

  /** The loop of `Log` over the data map: one `slog.Any` per entry, in an
      order the map iteration chooses. */
  method DataFields(data: map<string, Json>) returns (fields: seq<Attr>)
    ensures AttrsOfData(fields, data)
  {
    fields := [];
    var remaining := data.Keys;
    while remaining != {}
      invariant Collected(fields, data, remaining)
      decreases |remaining|
    {
      var k :| k in remaining;
      CollectOne(fields, data, remaining, k);
      fields := fields + [Attr(k, Any(data[k]))];
      remaining := remaining - {k};
    }
    forall k | k in data
      ensures exists i :: 0 <= i < |fields| && fields[i].key == k
    {
      assert k in KeysOf(fields);
    }
  }

  /** The loop invariant: the entries no longer `remaining` are collected, once each. */
  ghost predicate Collected(fields: seq<Attr>, data: map<string, Json>, remaining: set<string>)
  {
    && remaining <= data.Keys
    && |fields| + |remaining| == |data.Keys|
    && (forall i :: 0 <= i < |fields| ==> fields[i].key in data && fields[i].value == Any(data[fields[i].key]))
    && (forall i, j :: 0 <= i < j < |fields| ==> fields[i].key != fields[j].key)
    && KeysOf(fields) == data.Keys - remaining
  }

  lemma CollectOne(fields: seq<Attr>, data: map<string, Json>, remaining: set<string>, k: string)
    requires Collected(fields, data, remaining) && k in remaining
    ensures Collected(fields + [Attr(k, Any(data[k]))], data, remaining - {k})
  {
    var next := fields + [Attr(k, Any(data[k]))];
    KeysOfAppend(fields, Attr(k, Any(data[k])));
    assert |remaining - {k}| == |remaining| - 1;
    AppendEntry(fields, data, k);
  }

  /** Appending an attribute adds its key to the key set. */
  lemma KeysOfAppend(fields: seq<Attr>, a: Attr)
    ensures KeysOf(fields + [a]) == KeysOf(fields) + {a.key}
  {
    assert (fields + [a])[..|fields|] == fields;
  }

  /** Appending the entry of a key not yet collected keeps every attribute
      correct and every key distinct. */
  lemma AppendEntry(fields: seq<Attr>, data: map<string, Json>, k: string)
    requires k in data && k !in KeysOf(fields)
    requires forall i :: 0 <= i < |fields| ==> fields[i].key in data && fields[i].value == Any(data[fields[i].key])
    requires forall i, j :: 0 <= i < j < |fields| ==> fields[i].key != fields[j].key
    ensures var next := fields + [Attr(k, Any(data[k]))];
      && (forall i :: 0 <= i < |next| ==> next[i].key in data && next[i].value == Any(data[next[i].key]))
      && (forall i, j :: 0 <= i < j < |next| ==> next[i].key != next[j].key)
  {
    var next := fields + [Attr(k, Any(data[k]))];
    forall i | 0 <= i < |next|
      ensures next[i].key in data && next[i].value == Any(data[next[i].key])
    {
      if i < |fields| {
        assert next[i] == fields[i];
      }
    }
    forall i, j | 0 <= i < j < |next|
      ensures next[i].key != next[j].key
    {
      assert next[i] == fields[i];
      if j < |fields| {
        assert next[j] == fields[j];
      } else {
        assert fields[i].key in KeysOf(fields);
      }
    }
  }

  /** Any one-attribute-per-entry list has the entries' keys, each once. */
  lemma AttrsOfDataKeys(attrs: seq<Attr>, data: map<string, Json>)
    requires AttrsOfData(attrs, data)
    ensures KeysOf(attrs) == data.Keys
  {
  }

  /** An empty data map gives a record without attributes. */
  lemma EmptyDataNoAttrs(attrs: seq<Attr>)
    requires AttrsOfData(attrs, map[])
    ensures attrs == []
  {
  }
}
