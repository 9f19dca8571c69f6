/** Value types shared by every part of the logging facade: optional and
    fallible results, the JSON documents the decoders produce, slog attributes
    and emitted records, and the ASCII string helpers the Go code takes from
    package `strings`. */
module Common {

  datatype Option<+T> = None | Some(value: T)

  datatype Result<+T, +E> = Ok(value: T) | Err(error: E)

  /** A decoded JSON document (what `encoding/json` produces into `interface{}`). */
  datatype Json =
    | JNull
    | JBool(b: bool)
    | JNumber(n: real)
    | JString(s: string)
    | JArray(items: seq<Json>)
    | JObject(fields: map<string, Json>)

  /** A JSON object, the result of unmarshalling into `map[string]interface{}`. */
  type JsonObject = map<string, Json>

  /** The value carried by one slog attribute (`Multimap` is gRPC metadata
      logged with `slog.Any`). */
  datatype Value =
    | Str(s: string)
    | Int(i: int)
    | Null
    | Object(obj: JsonObject)
    | Any(json: Json)
    | Group(attrs: seq<Attr>)
    | Multimap(lists: map<string, seq<string>>)

  /** One slog attribute, a key and its value. */
  datatype Attr = Attr(key: string, value: Value)

  /** The four slog severities a record can be emitted at. */
  datatype SlogLevel = LevelDebug | LevelInfo | LevelWarn | LevelError

  /** An `slog.Logger`: the attributes added to it with `With` come first in each record. */
  datatype SlogLogger = SlogLogger(attrs: seq<Attr>)

  /** One record handed to the slog sink. */
  datatype Record = Record(level: SlogLevel, message: string, attrs: seq<Attr>)

  /** A protobuf message as the reflection-based code sees it: the struct tags
      of its generated fields and an opaque payload that protojson marshals. */
  datatype FieldDescriptor = FieldDescriptor(jsonTag: string, sensitiveTag: Option<string>)
  datatype ProtoMessage = ProtoMessage(fields: seq<FieldDescriptor>, payload: string)

  /** `logger.Config`, the settings `Init` builds the sinks from. */
  datatype LoggerConfig = LoggerConfig(
    env: string,
    serviceName: string,
    level: string,
    useJson: bool,
    fileEnabled: bool,
    filePath: string,
    fileSize: int,
    maxAge: int,
    maxBackups: int)

  /** Lower-cases one ASCII letter; every other character is unchanged. */
  function LowerChar(c: char): (r: char)
    ensures 'A' <= c <= 'Z' ==> r as int == c as int + 32
    ensures !('A' <= c <= 'Z') ==> r == c
  {
    if 'A' <= c <= 'Z' then (c as int + 32) as char else c
  }

  /** `strings.ToLower`, restricted to ASCII case mapping. */
  function Lower(s: string): (r: string)
    ensures |r| == |s|
    ensures forall i :: 0 <= i < |s| ==> r[i] == LowerChar(s[i])
  {
    seq(|s|, i requires 0 <= i < |s| => LowerChar(s[i]))
  }

  /** `sub` occurs in `s` at index `i`. */
  predicate OccursAt(s: string, sub: string, i: int)
  {
    0 <= i && i + |sub| <= |s| && s[i..i + |sub|] == sub
  }

  /** `strings.Contains`. */
  predicate Contains(s: string, sub: string)
  {
    exists i | 0 <= i <= |s| - |sub| :: OccursAt(s, sub, i)
  }

  /** The decimal digit string of a natural number, as `fmt` prints it. */
  function NatToString(n: nat): (r: string)
    ensures |r| >= 1
    ensures forall i :: 0 <= i < |r| ==> '0' <= r[i] <= '9'
    decreases n
  {
    var d := ['0' + (n % 10) as char];
    if n < 10 then d else NatToString(n / 10) + d
  }

  /** The decimal form of an integer, with a leading '-' when negative. */
  function IntToString(n: int): (r: string)
    ensures |r| >= 1
    ensures (n < 0) <==> r[0] == '-'
  {
    if n < 0 then "-" + NatToString(-n) else NatToString(n)
  }

  /** Elements joined by `sep`, as `strings.Join` does. */
  function JoinWith(parts: seq<string>, sep: string): (r: string)
    ensures parts == [] ==> r == ""
    ensures |parts| == 1 ==> r == parts[0]
  {
    if parts == [] then ""
    else if |parts| == 1 then parts[0]
    else parts[0] + sep + JoinWith(parts[1..], sep)
  }
}
