/** The gRPC client interceptor: it logs the outgoing request and the
    incoming response, turning each protobuf message into a JSON map in
    which the fields tagged `sensitive:"true"` are masked, and hands the
    invoker's error back unchanged. Strings are taken as sequences of
    single-byte characters. */
module GrpcClient {
  import opened Common
  import Canonical

  // ---------------------------------------------------------------------
  // Masking one value

  const Stars: string := "*****"

  /** The masking rule: first and last character around five stars, a
      single character followed by five stars, the empty string as it is. */
  function MaskString(s: string): (r: string)
    ensures |s| >= 2 ==> |r| == 7 && r[0] == s[0] && r[1..6] == Stars && r[6] == s[|s| - 1]
    ensures |s| == 1 ==> r == s + Stars
    ensures s == "" ==> r == ""
  {
    if |s| >= 2 then s[0..1] + Stars + s[|s| - 1..]
    else if |s| == 1 then s + Stars
    else s
  }

  /** Only string values are masked. */
  function MaskValue(v: Json): (r: Json)
    ensures !v.JString? ==> r == v
    ensures v.JString? ==> r == JString(MaskString(v.s))
  {
    if v.JString? then JString(MaskString(v.s)) else v
  }

  /** An already masked value of two or more characters stays as it is. */
  lemma MaskStringIdempotent(s: string)
    requires |s| != 1
    ensures MaskString(MaskString(s)) == MaskString(s)
  {
    if |s| >= 2 {
      var m := MaskString(s);
      assert m[0..1] + Stars + m[6..] == m;
    }
  }

  /** A one-character value is not a fixed point: masking it again adds a star. */
  lemma MaskStringNotIdempotentOnOneChar()
    ensures MaskString("x") == "x*****"
    ensures MaskString(MaskString("x")) == "x******"
    ensures MaskString(MaskString("x")) != MaskString("x")
  {
    assert MaskString("x") == "x*****";
    var m := "x*****";
    assert m[0..1] == "x" && m[|m| - 1..] == "*";
  }

  lemma MaskValueIdempotent(v: Json)
    requires !(v.JString? && |v.s| == 1)
    ensures MaskValue(MaskValue(v)) == MaskValue(v)
  {
    if v.JString? {
      MaskStringIdempotent(v.s);
    }
  }

  /** The examples of the masker's tests. */
  lemma MaskExamples()
    ensures MaskString("secret123") == "s*****3"
    ensures MaskString("x") == "x*****"
  {
    var s := "secret123";
    assert s[0..1] == "s" && s[|s| - 1..] == "3";
  }

  // ---------------------------------------------------------------------
  // Which map entries a message's field descriptors select

  /** `strings.Index(s, string(c))`: the first index of `c`, or -1. */
  function IndexOf(s: string, c: char): (i: int)
    ensures -1 <= i < |s|
    ensures i == -1 <==> c !in s
    ensures i >= 0 ==> s[i] == c && c !in s[..i]
  {
    if s == [] then -1
    else if s[0] == c then 0
    else
      var j := IndexOf(s[1..], c);
      if j == -1 then -1
      else
        assert s[..j + 1] == [s[0]] + s[1..][..j];
        j + 1
  }

  /** The map key of a field: its `json` tag up to the first comma. */
  function JsonFieldName(jsonTag: string): (name: string)
    ensures name <= jsonTag && ',' !in name
    ensures name != jsonTag ==> jsonTag[|name|] == ','
    ensures ',' !in jsonTag ==> name == jsonTag
  {
    var commaIdx := IndexOf(jsonTag, ',');
    if commaIdx > -1 then jsonTag[..commaIdx] else jsonTag
  }

  /** A tag with options (`name,omitempty`) keys the map by its name part. */
  lemma JsonFieldNameWithOptions(name: string, options: string)
    requires ',' !in name
    ensures JsonFieldName(name + "," + options) == name
  {
    var tag := name + "," + options;
    assert tag[..|name|] == name && tag[|name|] == ',';
  }

  /** A field is considered only when its `sensitive` tag is exactly "true". */
  predicate IsSensitive(f: FieldDescriptor)
  {
    f.sensitiveTag == Some("true")
  }

  /** One step of the masking loop. */
  function MaskField(f: FieldDescriptor, data: map<string, Json>): map<string, Json>
  {
    var name := JsonFieldName(f.jsonTag);
    if IsSensitive(f) && name in data then data[name := MaskValue(data[name])] else data
  }

  /** The masking loop over the struct fields, in declaration order. */
  function MaskFields(fields: seq<FieldDescriptor>, data: map<string, Json>): map<string, Json>
  {
    if fields == [] then data
    else MaskField(fields[|fields| - 1], MaskFields(fields[..|fields| - 1], data))
  }

  /** How many sensitive fields name the key `k`. */
  function SensitiveCount(fields: seq<FieldDescriptor>, k: string): nat
  {
    if fields == [] then 0
    else
      var f := fields[|fields| - 1];
      SensitiveCount(fields[..|fields| - 1], k) + (if IsSensitive(f) && JsonFieldName(f.jsonTag) == k then 1 else 0)
  }

  /** `v` masked `n` times over. */
  function MaskTimes(v: Json, n: nat): Json
  {
    if n == 0 then v else MaskValue(MaskTimes(v, n - 1))
  }

  /** The key set never changes, and each entry is masked once for every
      sensitive field naming it. */
  lemma {:induction false} MaskFieldsEntries(fields: seq<FieldDescriptor>, data: map<string, Json>)
    ensures MaskFields(fields, data).Keys == data.Keys
    ensures forall k :: k in data ==> MaskFields(fields, data)[k] == MaskTimes(data[k], SensitiveCount(fields, k))
  {
    if fields != [] {
      var init := fields[..|fields| - 1];
      MaskFieldsEntries(init, data);
    }
  }

  lemma {:induction false} MaskTimesFixed(v: Json, n: nat)
    requires MaskValue(v) == v
    ensures MaskTimes(v, n) == v
  {
    if n > 0 {
      MaskTimesFixed(v, n - 1);
    }
  }

  lemma {:induction false} MaskTimesOnce(v: Json, n: nat)
    requires n >= 1 && !(v.JString? && |v.s| == 1)
    ensures MaskTimes(v, n) == MaskValue(v)
  {
    if n > 1 {
      MaskTimesOnce(v, n - 1);
      MaskValueIdempotent(v);
    }
  }

  /** What the masker does to each entry: entries no sensitive field names
      are untouched; non-string and empty-string values are untouched; a
      named string is masked by the rule (a one-character one exactly once
      when one field names it). */
  lemma MaskFieldsSpec(fields: seq<FieldDescriptor>, data: map<string, Json>, k: string)
    requires k in data
    ensures MaskFields(fields, data).Keys == data.Keys
    ensures SensitiveCount(fields, k) == 0 ==> MaskFields(fields, data)[k] == data[k]
    ensures !data[k].JString? || data[k].s == "" ==> MaskFields(fields, data)[k] == data[k]
    ensures SensitiveCount(fields, k) >= 1 && !(data[k].JString? && |data[k].s| == 1) ==>
      MaskFields(fields, data)[k] == MaskValue(data[k])
    ensures SensitiveCount(fields, k) == 1 ==> MaskFields(fields, data)[k] == MaskValue(data[k])
  {
    MaskFieldsEntries(fields, data);
    var n := SensitiveCount(fields, k);
    var v := data[k];
    if !v.JString? || v.s == "" {
      MaskTimesFixed(v, n);
    }
    if n >= 1 && !(v.JString? && |v.s| == 1) {
      MaskTimesOnce(v, n);
    }
  }

  /** A message with one sensitive field masks exactly that field's entry. */
  lemma MaskSingleField(jsonTag: string, data: map<string, Json>)
    requires ',' !in jsonTag && jsonTag in data
    ensures MaskFields([FieldDescriptor(jsonTag, Some("true"))], data)
            == data[jsonTag := MaskValue(data[jsonTag])]
  {
    var fields := [FieldDescriptor(jsonTag, Some("true"))];
    assert fields[..0] == [];
  }

  // ---------------------------------------------------------------------
  // Messages to maps

  /** A decoded JSON map the masker rewrites in place. */
  class DecodedMap {
    var entries: map<string, Json>

    constructor (entries: map<string, Json>)
      ensures this.entries == entries
    {
      this.entries := entries;
    }
  }

  /** `maskSensitiveDataUsingStructTag`: a nil message leaves the map alone;
      otherwise each sensitive field's entry, when present, is masked. */
  method MaskSensitiveDataUsingStructTag(message: Option<ProtoMessage>, data: DecodedMap)
    modifies data
    ensures message.None? ==> data.entries == old(data.entries)
    ensures message.Some? ==> data.entries == MaskFields(message.value.fields, old(data.entries))
  {
    if message.None? {
      return;
    }
    var fields := message.value.fields;
    var i := 0;
    while i < |fields|
      invariant 0 <= i <= |fields|
      invariant data.entries == MaskFields(fields[..i], old(data.entries))
    {
      assert fields[..i + 1][..i] == fields[..i];
      MaskOneField(fields[i], data);
      i := i + 1;
    }
    assert fields[..i] == fields;
  }

  /** The body of the masking loop for one struct field. */
  method MaskOneField(field: FieldDescriptor, data: DecodedMap)
    modifies data
    ensures data.entries == MaskField(field, old(data.entries))
  {
    var entries := data.entries;
    if field.sensitiveTag.Some? && field.sensitiveTag.value == "true" {
      var jsonTag := field.jsonTag;
      var jsonFieldName := jsonTag;
      var commaIdx := IndexOf(jsonTag, ',');
      if commaIdx > -1 {
        jsonFieldName := jsonTag[..commaIdx];
      }
      if jsonFieldName in entries {
        var value := entries[jsonFieldName];
        if value.JString? && |value.s| >= 1 {
          entries := entries[jsonFieldName := MaskValue(value)];
        } else {
          UpdateUnchanged(entries, jsonFieldName);
        }
      }
      MaskFieldSensitive(field, data.entries, jsonFieldName);
    } else {
      MaskFieldIgnored(field, data.entries);
    }
    data.entries := entries;
  }

  /** A sensitive field masks the entry its tag names, when present. */
  lemma MaskFieldSensitive(field: FieldDescriptor, m: map<string, Json>, name: string)
    requires IsSensitive(field)
    requires name == (if IndexOf(field.jsonTag, ',') > -1 then field.jsonTag[..IndexOf(field.jsonTag, ',')] else field.jsonTag)
    ensures name == JsonFieldName(field.jsonTag)
    ensures name in m ==> MaskField(field, m) == m[name := MaskValue(m[name])]
    ensures name !in m ==> MaskField(field, m) == m
  {
  }

  /** A field not tagged sensitive leaves the map alone. */
  lemma MaskFieldIgnored(field: FieldDescriptor, m: map<string, Json>)
    requires !IsSensitive(field)
    ensures MaskField(field, m) == m
  {
  }

  /** Writing back the value a key already has leaves the map as it was. */
  lemma UpdateUnchanged(m: map<string, Json>, k: string)
    requires k in m && MaskValue(m[k]) == m[k]
    ensures m[k := MaskValue(m[k])] == m
  {
  }

  /** The protobuf codecs: `protojson.Marshal` with unpopulated fields
      emitted, and `json.Unmarshal` into a map (`None` for a JSON null). */
  datatype Codecs = Codecs(
    marshal: ProtoMessage -> Result<string, string>,
    unmarshal: string -> Result<Option<JsonObject>, string>)

  /** What `protoMessageToMap` yields: nothing for a nil message, the first
      error of marshalling or decoding, else the decoded map masked. */
  function Converted(message: Option<ProtoMessage>, codecs: Codecs): Result<Option<JsonObject>, string>
  {
    match message
    case None => Ok(None)
    case Some(m) =>
      match codecs.marshal(m)
      case Err(e) => Err(e)
      case Ok(jsonBytes) =>
        match codecs.unmarshal(jsonBytes)
        case Err(e) => Err(e)
        case Ok(None) => Ok(None)
        case Ok(Some(result)) => Ok(Some(MaskFields(m.fields, result)))
  }

  /** `protoMessageToMap`: a fresh map for a decoded message, masked in
      place; nothing for a nil message (no masking happens then). */
  method ProtoMessageToMap(message: Option<ProtoMessage>, codecs: Codecs)
    returns (r: Result<Option<DecodedMap>, string>)
    ensures message.None? ==> r == Ok(None)
    ensures r.Err? <==> Converted(message, codecs).Err?
    ensures r.Err? ==> r.error == Converted(message, codecs).error
    ensures r.Ok? ==> (r.value.Some? <==> Converted(message, codecs).value.Some?)
    ensures r.Ok? && r.value.Some? ==>
      fresh(r.value.value) && r.value.value.entries == Converted(message, codecs).value.value
  {
    if message.None? {
      return Ok(None);
    }
    var jsonBytes := codecs.marshal(message.value);
    if jsonBytes.Err? {
      return Err(jsonBytes.error);
    }
    var decoded := codecs.unmarshal(jsonBytes.value);
    if decoded.Err? {
      return Err(decoded.error);
    }
    if decoded.value.None? {
      return Ok(None);
    }
    var result := new DecodedMap(decoded.value.value);
    MaskSensitiveDataUsingStructTag(message, result);
    return Ok(Some(result));
  }

  /** The `body` attribute: the map when there is one, else nil. */
  function BodyValue(converted: Result<Option<JsonObject>, string>): Value
  {
    if converted.Ok? && converted.value.Some? then Object(converted.value.value) else Null
  }

  /** The warning logged when a message cannot be turned into a map. */
  function ConversionWarnings(msg: string, converted: Result<Option<JsonObject>, string>): seq<Record>
  {
    if converted.Err? then [Record(LevelWarn, msg, [Attr("error", Str(converted.error))])] else []
  }

  /** The records of `logGRPCClientRequest`. */
  function RequestRecords(fullMethod: string, md: map<string, seq<string>>,
                          converted: Result<Option<JsonObject>, string>): seq<Record>
  {
    ConversionWarnings("failed to convert request to map", converted)
    + [Record(LevelInfo, "Sent gRPC Request to " + fullMethod,
              [Attr("type", Str("grpcclient")), Attr("method", Str(fullMethod)),
               Attr("metadata", Multimap(md)), Attr("body", BodyValue(converted))])]
  }

  /** The records of `logGRPCClientResponse`; `errorText` is the error's
      `Error()` text and `duration` the elapsed time's `String()`. */
  function ResponseRecords(fullMethod: string, md: map<string, seq<string>>,
                           converted: Result<Option<JsonObject>, string>,
                           err: Option<Canonical.ErrorValue>, errorText: Canonical.ErrorValue -> string,
                           duration: string): seq<Record>
  {
    ConversionWarnings("failed to convert response to map", converted)
    + [Record(if err.Some? then LevelError else LevelInfo, "Received gRPC Response from " + fullMethod,
              [Attr("type", Str("grpcclient")), Attr("method", Str(fullMethod)),
               Attr("metadata", Multimap(md)), Attr("body", BodyValue(converted)),
               Attr("status_code", Int(Canonical.StatusCode(err))),
               Attr("error", if err.Some? then Str(errorText(err.value)) else Null),
               Attr("duration", Str(duration))])]
  }

  method LogGRPCClientRequest(fullMethod: string, md: map<string, seq<string>>, req: Option<ProtoMessage>,
                              codecs: Codecs)
    returns (records: seq<Record>)
    ensures records == RequestRecords(fullMethod, md, Converted(req, codecs))
  {
    var reqMap := ProtoMessageToMap(req, codecs);
    var body: Value := Null;
    records := [];
    if reqMap.Err? {
      records := [Record(LevelWarn, "failed to convert request to map", [Attr("error", Str(reqMap.error))])];
    } else if reqMap.value.Some? {
      body := Object(reqMap.value.value.entries);
    }
    var fields := [Attr("type", Str("grpcclient")), Attr("method", Str(fullMethod)),
                   Attr("metadata", Multimap(md)), Attr("body", body)];
    records := records + [Record(LevelInfo, "Sent gRPC Request to " + fullMethod, fields)];
  }

  method LogGRPCClientResponse(fullMethod: string, md: map<string, seq<string>>, resp: Option<ProtoMessage>,
                               err: Option<Canonical.ErrorValue>, codecs: Codecs,
                               errorText: Canonical.ErrorValue -> string, duration: string)
    returns (records: seq<Record>)
    ensures records == ResponseRecords(fullMethod, md, Converted(resp, codecs), err, errorText, duration)
  {
    var respMap := ProtoMessageToMap(resp, codecs);
    var body: Value := Null;
    records := [];
    if respMap.Err? {
      records := [Record(LevelWarn, "failed to convert response to map", [Attr("error", Str(respMap.error))])];
    } else if respMap.value.Some? {
      body := Object(respMap.value.value.entries);
    }
    var statusError: Value := Null;
    if err.Some? {
      statusError := Str(errorText(err.value));
    }
    var fields := [Attr("type", Str("grpcclient")), Attr("method", Str(fullMethod)),
                   Attr("metadata", Multimap(md)), Attr("body", body),
                   Attr("status_code", Int(Canonical.StatusCode(err))),
                   Attr("error", statusError), Attr("duration", Str(duration))];
    var msg := "Received gRPC Response from " + fullMethod;
    if err.Some? {
      records := records + [Record(LevelError, msg, fields)];
    } else {
      records := records + [Record(LevelInfo, msg, fields)];
    }
  }

  /** What the invoker did: the header metadata it received, the response
      message it filled in and the error it returned. */
  datatype Invocation = Invocation(receivedMd: map<string, seq<string>>, resp: Option<ProtoMessage>,
                                   err: Option<Canonical.ErrorValue>)

  /** `UnaryClientLoggingInterceptor` (also returned by `GRPCClientInterceptor`):
      the request records, the call, the response records, and the invoker's
      error returned unchanged. */
  method UnaryClientLoggingInterceptor(fullMethod: string, sentMd: map<string, seq<string>>,
                                       req: Option<ProtoMessage>, invoker: Invocation,
                                       codecs: Codecs, errorText: Canonical.ErrorValue -> string,
                                       duration: string)
    returns (err: Option<Canonical.ErrorValue>, records: seq<Record>)
    ensures err == invoker.err
    ensures records == RequestRecords(fullMethod, sentMd, Converted(req, codecs))
                       + ResponseRecords(fullMethod, invoker.receivedMd, Converted(invoker.resp, codecs),
                                         invoker.err, errorText, duration)
  {
    var sent := LogGRPCClientRequest(fullMethod, sentMd, req, codecs);
    err := invoker.err;
    var received := LogGRPCClientResponse(fullMethod, invoker.receivedMd, invoker.resp, err, codecs, errorText, duration);
    records := sent + received;
  }

  /** The request record is always Info; the response record is Error
      exactly when the call failed, and carries the call's status code. */
  lemma ClientRecordLevels(fullMethod: string, sentMd: map<string, seq<string>>, receivedMd: map<string, seq<string>>,
                           reqConv: Result<Option<JsonObject>, string>, respConv: Result<Option<JsonObject>, string>,
                           err: Option<Canonical.ErrorValue>, errorText: Canonical.ErrorValue -> string,
                           duration: string)
    ensures var req := RequestRecords(fullMethod, sentMd, reqConv);
            var resp := ResponseRecords(fullMethod, receivedMd, respConv, err, errorText, duration);
            && req[|req| - 1].level == LevelInfo
            && (resp[|resp| - 1].level == LevelError <==> err.Some?)
            && resp[|resp| - 1].attrs[4] == Attr("status_code", Int(Canonical.StatusCode(err)))
            && (err.None? ==> resp[|resp| - 1].attrs[4].value == Int(0))
            && (|req| == 2 <==> reqConv.Err?) && (|resp| == 2 <==> respConv.Err?)
  {
  }

  /** The logged body of a message is its masked map: a sensitive value
      never reaches the log unmasked. */
  lemma LoggedBodyIsMasked(message: ProtoMessage, codecs: Codecs, k: string)
    requires codecs.marshal(message).Ok?
    requires var d := codecs.unmarshal(codecs.marshal(message).value);
             d.Ok? && d.value.Some? && k in d.value.value
    requires SensitiveCount(message.fields, k) == 1
    ensures var data := codecs.unmarshal(codecs.marshal(message).value).value.value;
            && BodyValue(Converted(Some(message), codecs)) == Object(MaskFields(message.fields, data))
            && MaskFields(message.fields, data).Keys == data.Keys
            && MaskFields(message.fields, data)[k] == MaskValue(data[k])
  {
    var data := codecs.unmarshal(codecs.marshal(message).value).value.value;
    MaskFieldsSpec(message.fields, data, k);
  }

  /** A nil message is logged with a nil body and no warning. */
  lemma NilMessageBody(codecs: Codecs)
    ensures Converted(None, codecs) == Ok(None)
    ensures BodyValue(Converted(None, codecs)) == Null
    ensures ConversionWarnings("failed to convert request to map", Converted(None, codecs)) == []
  {
  }
}
