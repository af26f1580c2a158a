/**
 * The parsing of one Bedrock invocation-log record (split_event in app.py):
 * the inline input body, the S3 input path, the output body, a metadata
 * dict and the error code.
 */
module EventParser {
  import opened Wrappers
  import opened PyJson

  /** The keys split_event ever stores in its metadata dict. */
  datatype MetaKey =
    | Timestamp
    | ModelId
    | Operation
    | StopReason
    | Usage
    | LatencyMs
    | InferenceConfig
    | AdditionalModelRequestFields
  {
    /** The key as the dict spells it. */
    function Name(): string
    {
      match this
      case Timestamp => "timestamp"
      case ModelId => "modelId"
      case Operation => "operation"
      case StopReason => "stopReason"
      case Usage => "usage"
      case LatencyMs => "latencyMs"
      case InferenceConfig => "inferenceConfig"
      case AdditionalModelRequestFields => "additionalModelRequestFields"
    }
  }

  /** The metadata dict: its keys in insertion order and the value of each. */
  datatype Metadata = Metadata(keys: seq<MetaKey>, values: map<MetaKey, Json>)

  const NoMetadata := Metadata([], map[])

  /** What a Python dict guarantees: each key once, and exactly the keys that
      have a value. */
  ghost predicate ValidMetadata(d: Metadata)
  {
    && (forall i, j :: 0 <= i < j < |d.keys| ==> d.keys[i] != d.keys[j])
    && (forall k :: k in d.values <==> k in d.keys)
  }

  /** `d[k]` read without raising. */
  function MetaGet(d: Metadata, k: MetaKey): Option<Json>
  {
    if k in d.values then Some(d.values[k]) else None
  }

  /** None of the keys ks is in d. */
  predicate Lacks(d: Metadata, ks: set<MetaKey>)
  {
    forall k :: k in ks ==> k !in d.values
  }

  /** Python's `d[k] = v`: an existing key keeps its place and takes the new
      value, a new key goes at the end; no other key changes. */
  function Store(d: Metadata, k: MetaKey, v: Json): (r: Metadata)
    ensures MetaGet(r, k) == Some(v)
    ensures forall k' :: k' != k ==> MetaGet(r, k') == MetaGet(d, k')
    ensures ValidMetadata(d) ==> ValidMetadata(r)
    ensures k !in d.values ==> r.keys == d.keys + [k]
  {
    Metadata(if k in d.values then d.keys else d.keys + [k], d.values[k := v])
  }

  /** The five values split_event returns.  JNull stands for None. */
  datatype Parsed = Parsed(
    inputBody: Json,
    inputS3Path: Json,
    outputBody: Json,
    metadata: Metadata,
    errorCode: Json)

  /** The usage substituted when the record carries no output body. */
  const ZeroUsage: Json :=
    JObj([("inputTokens", JNum(0)), ("outputTokens", JNum(0)), ("totalTokens", JNum(0))])

  /** The inline body read from `input.inputBodyJson`, or the S3 path read from
      `input.inputBodyS3Path` when there is no inline body. */
  function InputBodies(event: Json): (r: PyResult<(Json, Json)>)
    ensures r.Success? ==> r.value.0 == GetPath(event, ["input", "inputBodyJson"]).GetOr(JNull)
    ensures r.Success? ==>
      r.value.1 == (if GetPath(event, ["input", "inputBodyJson"]).Some? then JNull
                    else GetPath(event, ["input", "inputBodyS3Path"]).GetOr(JNull))
    ensures r.Success? ==> r.value.0 == JNull || r.value.1 == JNull
    ensures event.JObj? && (Get(event, "input").Some? ==> Get(event, "input").value.JObj?) ==> r.Success?
  {
    var hasInput :- Contains(event, "input");
    if !hasInput then Success((JNull, JNull))
    else
      var input :- Subscript(event, "input");
      var hasInline :- Contains(input, "inputBodyJson");
      if hasInline then
        var body :- Subscript(input, "inputBodyJson");
        Success((body, JNull))
      else
        // input is a dict, a list or a str here, so `in` cannot raise
        var hasS3 := Contains(input, "inputBodyS3Path").value;
        if hasS3 then
          var path :- Subscript(input, "inputBodyS3Path");
          Success((JNull, path))
        else
          Success((JNull, JNull))
  }

  /** The output body read from `output.outputBodyJson`. */
  function OutputBody(event: Json): (r: PyResult<Json>)
    ensures r.Success? ==> r.value == GetPath(event, ["output", "outputBodyJson"]).GetOr(JNull)
    ensures event.JObj? && (Get(event, "output").Some? ==> Get(event, "output").value.JObj?) ==> r.Success?
  {
    var hasOutput :- Contains(event, "output");
    if !hasOutput then Success(JNull)
    else
      var output :- Subscript(event, "output");
      var hasBody :- Contains(output, "outputBodyJson");
      if hasBody then Subscript(output, "outputBodyJson") else Success(JNull)
  }

  /** The three members every record must have, copied verbatim into m. */
  function StoreRequired(m: Metadata, event: Json): (r: PyResult<Metadata>)
    ensures r.Success? <==>
      Get(event, "timestamp").Some? && Get(event, "modelId").Some? && Get(event, "operation").Some?
    ensures r.Success? ==>
      && MetaGet(r.value, Timestamp) == Get(event, "timestamp")
      && MetaGet(r.value, ModelId) == Get(event, "modelId")
      && MetaGet(r.value, Operation) == Get(event, "operation")
      && (forall k :: k != Timestamp && k != ModelId && k != Operation ==> MetaGet(r.value, k) == MetaGet(m, k))
      && (ValidMetadata(m) ==> ValidMetadata(r.value))
    ensures r.Success? && Timestamp !in m.values && ModelId !in m.values && Operation !in m.values ==>
      r.value.keys == m.keys + [Timestamp, ModelId, Operation]
    ensures !event.JObj? ==> r == Failure(TypeError)
    ensures event.JObj? && Get(event, "timestamp").None? ==> r == Failure(KeyError(JStr("timestamp")))
    ensures event.JObj? && Get(event, "timestamp").Some? && Get(event, "modelId").None?
      ==> r == Failure(KeyError(JStr("modelId")))
    ensures event.JObj? && Get(event, "timestamp").Some? && Get(event, "modelId").Some?
            && Get(event, "operation").None?
      ==> r == Failure(KeyError(JStr("operation")))
  {
    var timestamp :- Subscript(event, "timestamp");
    var modelId :- Subscript(event, "modelId");
    var operation :- Subscript(event, "operation");
    Success(Store(Store(Store(m, Timestamp, timestamp), ModelId, modelId), Operation, operation))
  }

  /** The metadata read from a truthy output body, stored into m:
      `stopReason`, `usage` and `metrics.latencyMs`. */
  function StoreOutputFields(m: Metadata, out: Json): (r: PyResult<Metadata>)
    ensures r.Success? <==>
      Get(out, "stopReason").Some? && Get(out, "usage").Some? && GetPath(out, ["metrics", "latencyMs"]).Some?
    ensures r.Success? ==>
      && MetaGet(r.value, StopReason) == Get(out, "stopReason")
      && MetaGet(r.value, Usage) == Get(out, "usage")
      && MetaGet(r.value, LatencyMs) == GetPath(out, ["metrics", "latencyMs"])
      && (forall k :: k != StopReason && k != Usage && k != LatencyMs ==> MetaGet(r.value, k) == MetaGet(m, k))
      && (ValidMetadata(m) ==> ValidMetadata(r.value))
    ensures r.Success? && StopReason !in m.values && Usage !in m.values && LatencyMs !in m.values ==>
      r.value.keys == m.keys + [StopReason, Usage, LatencyMs]
  {
    var stopReason :- Subscript(out, "stopReason");
    var usage :- Subscript(out, "usage");
    var metrics :- Subscript(out, "metrics");
    var latency :- Subscript(metrics, "latencyMs");
    Success(Store(Store(Store(m, StopReason, stopReason), Usage, usage), LatencyMs, latency))
  }

  /** The zero usage and latency, stored into m. */
  function StoreDefaultUsage(m: Metadata): (r: Metadata)
    ensures MetaGet(r, Usage) == Some(ZeroUsage) && MetaGet(r, LatencyMs) == Some(JNum(0))
    ensures forall k :: k != Usage && k != LatencyMs ==> MetaGet(r, k) == MetaGet(m, k)
    ensures ValidMetadata(m) ==> ValidMetadata(r)
    ensures Usage !in m.values && LatencyMs !in m.values ==> r.keys == m.keys + [Usage, LatencyMs]
  {
    Store(Store(m, Usage, ZeroUsage), LatencyMs, JNum(0))
  }

  /** What the output body contributes to the metadata: its fields when it
      is truthy, otherwise the zero usage and latency and no stop reason. */
  function StoreOutputMetadata(m: Metadata, out: Json): (r: PyResult<Metadata>)
    ensures Truthy(out) ==>
      (r.Success? <==> Get(out, "stopReason").Some? && Get(out, "usage").Some?
                       && GetPath(out, ["metrics", "latencyMs"]).Some?)
    ensures r.Success? && Truthy(out) ==>
      && MetaGet(r.value, StopReason) == Get(out, "stopReason")
      && MetaGet(r.value, Usage) == Get(out, "usage")
      && MetaGet(r.value, LatencyMs) == GetPath(out, ["metrics", "latencyMs"])
    ensures !Truthy(out) ==>
      && r.Success?
      && MetaGet(r.value, StopReason) == MetaGet(m, StopReason)
      && MetaGet(r.value, Usage) == Some(ZeroUsage)
      && MetaGet(r.value, LatencyMs) == Some(JNum(0))
    ensures r.Success? ==>
      forall k :: k != StopReason && k != Usage && k != LatencyMs ==> MetaGet(r.value, k) == MetaGet(m, k)
    ensures r.Success? && ValidMetadata(m) ==> ValidMetadata(r.value)
    ensures r.Success? && StopReason !in m.values && Usage !in m.values && LatencyMs !in m.values ==>
      r.value.keys == m.keys + (if Truthy(out) then [StopReason] else []) + [Usage, LatencyMs]
  {
    if Truthy(out) then StoreOutputFields(m, out) else Success(StoreDefaultUsage(m))
  }

  /** `if name in body: metadata[name] = body[name]` for one of the optional
      request fields. */
  function StoreIfPresent(m: Metadata, body: Json, k: MetaKey): (r: PyResult<Metadata>)
    ensures r.Success? ==>
      MetaGet(r.value, k) == (if Get(body, k.Name()).Some? then Get(body, k.Name()) else MetaGet(m, k))
    ensures r.Success? ==> forall k' :: k' != k ==> MetaGet(r.value, k') == MetaGet(m, k')
    ensures r.Success? && ValidMetadata(m) ==> ValidMetadata(r.value)
    ensures r.Success? && k !in m.values ==>
      r.value.keys == m.keys + (if Get(body, k.Name()).Some? then [k] else [])
    ensures body.JObj? ==> r.Success?
    ensures r.Failure? ==> !body.JObj?
  {
    var has :- Contains(body, k.Name());
    if has then
      var v :- Subscript(body, k.Name());
      Success(Store(m, k, v))
    else
      Success(m)
  }

  /** The optional request fields of a truthy inline input body, stored into m
      when the body has them. */
  function StoreInputMetadata(m: Metadata, body: Json): (r: PyResult<Metadata>)
    ensures r.Success? ==>
      && MetaGet(r.value, InferenceConfig) ==
           (if Truthy(body) && Get(body, "inferenceConfig").Some? then Get(body, "inferenceConfig")
            else MetaGet(m, InferenceConfig))
      && MetaGet(r.value, AdditionalModelRequestFields) ==
           (if Truthy(body) && Get(body, "additionalModelRequestFields").Some?
            then Get(body, "additionalModelRequestFields")
            else MetaGet(m, AdditionalModelRequestFields))
    ensures r.Success? ==>
      forall k :: k != InferenceConfig && k != AdditionalModelRequestFields ==> MetaGet(r.value, k) == MetaGet(m, k)
    ensures r.Success? && ValidMetadata(m) ==> ValidMetadata(r.value)
    ensures r.Success? && InferenceConfig !in m.values && AdditionalModelRequestFields !in m.values ==>
      r.value.keys ==
        m.keys
        + (if Truthy(body) && Get(body, "inferenceConfig").Some? then [InferenceConfig] else [])
        + (if Truthy(body) && Get(body, "additionalModelRequestFields").Some?
           then [AdditionalModelRequestFields] else [])
    ensures !Truthy(body) || body.JObj? ==> r.Success?
  {
    if Truthy(body) then
      var withConfig :- StoreIfPresent(m, body, InferenceConfig);
      StoreIfPresent(withConfig, body, AdditionalModelRequestFields)
    else
      Success(m)
  }

  /** The dict split_event fills: the required members, then what the output
      body contributes, then what the inline input body contributes. */
  function RecordMetadata(event: Json, inputBody: Json, outputBody: Json): (r: PyResult<Metadata>)
    ensures !(Get(event, "timestamp").Some? && Get(event, "modelId").Some? && Get(event, "operation").Some?)
      ==> r.Failure?
    ensures Truthy(outputBody) &&
            !(Get(outputBody, "stopReason").Some? && Get(outputBody, "usage").Some?
              && GetPath(outputBody, ["metrics", "latencyMs"]).Some?)
      ==> r.Failure?
    ensures r.Success? ==> event.JObj?
    ensures event.JObj? && Get(event, "timestamp").None? ==> r == Failure(KeyError(JStr("timestamp")))
    ensures event.JObj? && Get(event, "timestamp").Some? && Get(event, "modelId").None?
      ==> r == Failure(KeyError(JStr("modelId")))
    ensures event.JObj? && Get(event, "timestamp").Some? && Get(event, "modelId").Some?
            && Get(event, "operation").None?
      ==> r == Failure(KeyError(JStr("operation")))
    ensures && Get(event, "timestamp").Some? && Get(event, "modelId").Some? && Get(event, "operation").Some?
            && (Truthy(outputBody) ==>
                  Get(outputBody, "stopReason").Some? && Get(outputBody, "usage").Some?
                  && GetPath(outputBody, ["metrics", "latencyMs"]).Some?)
            && (!Truthy(inputBody) || inputBody.JObj?)
      ==> r.Success?
  {
    var required :- StoreRequired(NoMetadata, event);
    var withOutput :- StoreOutputMetadata(required, outputBody);
    StoreInputMetadata(withOutput, inputBody)
  }

  /** The record's metadata is a dict: each key once, and exactly the keys
      that have a value. */
  lemma RecordMetadataValid(event: Json, inputBody: Json, outputBody: Json)
    requires RecordMetadata(event, inputBody, outputBody).Success?
    ensures ValidMetadata(RecordMetadata(event, inputBody, outputBody).value)
  {
    assert ValidMetadata(NoMetadata);
    var required := StoreRequired(NoMetadata, event).value;
    var withOutput := StoreOutputMetadata(required, outputBody).value;
    assert ValidMetadata(withOutput);
    assert RecordMetadata(event, inputBody, outputBody) == StoreInputMetadata(withOutput, inputBody);
  }

  /** The keys the output body and then the inline input body add to a dict
      that has none of them yet. */
  lemma OutputInputKeys(m: Metadata, withOutput: Metadata, r: Metadata, outputBody: Json, inputBody: Json)
    requires Lacks(m, {StopReason, Usage, LatencyMs, InferenceConfig, AdditionalModelRequestFields})
    requires StoreOutputMetadata(m, outputBody) == Success(withOutput)
    requires StoreInputMetadata(withOutput, inputBody) == Success(r)
    ensures r.keys ==
        m.keys
        + (if Truthy(outputBody) then [StopReason] else [])
        + [Usage, LatencyMs]
        + (if Truthy(inputBody) && Get(inputBody, "inferenceConfig").Some? then [InferenceConfig] else [])
        + (if Truthy(inputBody) && Get(inputBody, "additionalModelRequestFields").Some?
           then [AdditionalModelRequestFields] else [])
  {
    assert StopReason !in m.values && Usage !in m.values && LatencyMs !in m.values;
    assert MetaGet(withOutput, InferenceConfig) == MetaGet(m, InferenceConfig) == None;
    assert MetaGet(withOutput, AdditionalModelRequestFields) == MetaGet(m, AdditionalModelRequestFields) == None;
  }

  /** The dict holding the required members has exactly their three keys. */
  lemma RequiredOnly(event: Json)
    requires StoreRequired(NoMetadata, event).Success?
    ensures StoreRequired(NoMetadata, event).value.keys == [Timestamp, ModelId, Operation]
    ensures Lacks(StoreRequired(NoMetadata, event).value,
                  {StopReason, Usage, LatencyMs, InferenceConfig, AdditionalModelRequestFields})
  {
    var required := StoreRequired(NoMetadata, event).value;
    forall k | k in {StopReason, Usage, LatencyMs, InferenceConfig, AdditionalModelRequestFields}
      ensures k !in required.values
    {
      assert MetaGet(required, k) == MetaGet(NoMetadata, k);
    }
  }

  /** The keys of the record's metadata, in the order split_event inserts
      them. */
  lemma RecordMetadataKeys(event: Json, inputBody: Json, outputBody: Json)
    requires RecordMetadata(event, inputBody, outputBody).Success?
    ensures RecordMetadata(event, inputBody, outputBody).value.keys ==
        [Timestamp, ModelId, Operation]
        + (if Truthy(outputBody) then [StopReason] else [])
        + [Usage, LatencyMs]
        + (if Truthy(inputBody) && Get(inputBody, "inferenceConfig").Some? then [InferenceConfig] else [])
        + (if Truthy(inputBody) && Get(inputBody, "additionalModelRequestFields").Some?
           then [AdditionalModelRequestFields] else [])
  {
    RequiredOnly(event);
    var required := StoreRequired(NoMetadata, event).value;
    var withOutput := StoreOutputMetadata(required, outputBody).value;
    var r := StoreInputMetadata(withOutput, inputBody).value;
    OutputInputKeys(required, withOutput, r, outputBody, inputBody);
  }

  /** The values the output body leaves in a dict that has no stop reason
      yet, and which the inline input body does not touch. */
  lemma OutputValues(m: Metadata, withOutput: Metadata, r: Metadata, outputBody: Json, inputBody: Json)
    requires StopReason !in m.values
    requires StoreOutputMetadata(m, outputBody) == Success(withOutput)
    requires StoreInputMetadata(withOutput, inputBody) == Success(r)
    ensures MetaGet(r, StopReason) == (if Truthy(outputBody) then Get(outputBody, "stopReason") else None)
    ensures MetaGet(r, Usage) == (if Truthy(outputBody) then Get(outputBody, "usage") else Some(ZeroUsage))
    ensures MetaGet(r, LatencyMs) ==
      (if Truthy(outputBody) then GetPath(outputBody, ["metrics", "latencyMs"]) else Some(JNum(0)))
  {
    assert MetaGet(r, StopReason) == MetaGet(withOutput, StopReason);
  }

  /** The values the inline input body leaves in a dict that has no request
      fields yet, which the output body does not add. */
  lemma InputValues(m: Metadata, withOutput: Metadata, r: Metadata, outputBody: Json, inputBody: Json)
    requires InferenceConfig !in m.values && AdditionalModelRequestFields !in m.values
    requires StoreOutputMetadata(m, outputBody) == Success(withOutput)
    requires StoreInputMetadata(withOutput, inputBody) == Success(r)
    ensures MetaGet(r, InferenceConfig) ==
      (if Truthy(inputBody) then Get(inputBody, "inferenceConfig") else None)
    ensures MetaGet(r, AdditionalModelRequestFields) ==
      (if Truthy(inputBody) then Get(inputBody, "additionalModelRequestFields") else None)
  {
    assert MetaGet(withOutput, InferenceConfig) == MetaGet(m, InferenceConfig);
    assert MetaGet(withOutput, AdditionalModelRequestFields) == MetaGet(m, AdditionalModelRequestFields);
  }

  /** The output body and the inline input body leave every other key
      alone. */
  lemma OutputInputKeep(m: Metadata, withOutput: Metadata, r: Metadata, outputBody: Json, inputBody: Json, k: MetaKey)
    requires k != StopReason && k != Usage && k != LatencyMs
    requires k != InferenceConfig && k != AdditionalModelRequestFields
    requires StoreOutputMetadata(m, outputBody) == Success(withOutput)
    requires StoreInputMetadata(withOutput, inputBody) == Success(r)
    ensures MetaGet(r, k) == MetaGet(m, k)
  {
    assert MetaGet(withOutput, k) == MetaGet(m, k);
  }

  /** The value of every key of the record's metadata. */
  lemma RecordMetadataValues(event: Json, inputBody: Json, outputBody: Json)
    requires RecordMetadata(event, inputBody, outputBody).Success?
    ensures var m := RecordMetadata(event, inputBody, outputBody).value;
      && MetaGet(m, Timestamp) == Get(event, "timestamp")
      && MetaGet(m, ModelId) == Get(event, "modelId")
      && MetaGet(m, Operation) == Get(event, "operation")
      && MetaGet(m, StopReason) == (if Truthy(outputBody) then Get(outputBody, "stopReason") else None)
      && MetaGet(m, Usage) == (if Truthy(outputBody) then Get(outputBody, "usage") else Some(ZeroUsage))
      && MetaGet(m, LatencyMs) ==
           (if Truthy(outputBody) then GetPath(outputBody, ["metrics", "latencyMs"]) else Some(JNum(0)))
      && MetaGet(m, InferenceConfig) ==
           (if Truthy(inputBody) then Get(inputBody, "inferenceConfig") else None)
      && MetaGet(m, AdditionalModelRequestFields) ==
           (if Truthy(inputBody) then Get(inputBody, "additionalModelRequestFields") else None)
  {
    RequiredOnly(event);
    var required := StoreRequired(NoMetadata, event).value;
    var withOutput := StoreOutputMetadata(required, outputBody).value;
    var r := StoreInputMetadata(withOutput, inputBody).value;
    OutputValues(required, withOutput, r, outputBody, inputBody);
    InputValues(required, withOutput, r, outputBody, inputBody);
    OutputInputKeep(required, withOutput, r, outputBody, inputBody, Timestamp);
    OutputInputKeep(required, withOutput, r, outputBody, inputBody, ModelId);
    OutputInputKeep(required, withOutput, r, outputBody, inputBody, Operation);
  }

  /** A record whose `input` and `output` sections split_event reads without
      raising: an object whose `input` and `output` members, when present, are
      objects. */
  ghost predicate SectionsReadable(event: Json)
  {
    && event.JObj?
    && (Get(event, "input").Some? ==> Get(event, "input").value.JObj?)
    && (Get(event, "output").Some? ==> Get(event, "output").value.JObj?)
  }

  /** A record split_event accepts without raising: an object whose `input`
      and `output` members, when present, are objects, which has the three
      required members, whose truthy output body has the fields the metadata
      copies, and whose truthy inline input body is an object. */
  ghost predicate WellFormedRecord(event: Json)
  {
    && SectionsReadable(event)
    && Get(event, "timestamp").Some? && Get(event, "modelId").Some? && Get(event, "operation").Some?
    && var out := GetPath(event, ["output", "outputBodyJson"]).GetOr(JNull);
       && (Truthy(out) ==>
             Get(out, "stopReason").Some? && Get(out, "usage").Some? && GetPath(out, ["metrics", "latencyMs"]).Some?)
       && var body := GetPath(event, ["input", "inputBodyJson"]).GetOr(JNull);
          !Truthy(body) || body.JObj?
  }

  /** split_event on a decoded record. */
  function Split(event: Json): (r: PyResult<Parsed>)
    ensures r.Success? ==> event.JObj?
    ensures r.Success? ==> r.value.inputBody == GetPath(event, ["input", "inputBodyJson"]).GetOr(JNull)
    ensures r.Success? ==>
      r.value.inputS3Path == (if GetPath(event, ["input", "inputBodyJson"]).Some? then JNull
                             else GetPath(event, ["input", "inputBodyS3Path"]).GetOr(JNull))
    ensures r.Success? ==> r.value.inputBody == JNull || r.value.inputS3Path == JNull
    ensures r.Success? ==> r.value.outputBody == GetPath(event, ["output", "outputBodyJson"]).GetOr(JNull)
    ensures r.Success? ==>
      RecordMetadata(event, r.value.inputBody, r.value.outputBody) == Success(r.value.metadata)
    ensures r.Success? ==> r.value.errorCode == Get(event, "errorCode").GetOr(JNull)
    ensures !(Get(event, "timestamp").Some? && Get(event, "modelId").Some? && Get(event, "operation").Some?)
      ==> r.Failure?
    ensures var out := GetPath(event, ["output", "outputBodyJson"]).GetOr(JNull);
      Truthy(out) && !(Get(out, "stopReason").Some? && Get(out, "usage").Some?
                       && GetPath(out, ["metrics", "latencyMs"]).Some?)
      ==> r.Failure?
    ensures SectionsReadable(event) && Get(event, "timestamp").None? ==> r == Failure(KeyError(JStr("timestamp")))
    ensures SectionsReadable(event) && Get(event, "timestamp").Some? && Get(event, "modelId").None?
      ==> r == Failure(KeyError(JStr("modelId")))
    ensures SectionsReadable(event) && Get(event, "timestamp").Some? && Get(event, "modelId").Some?
            && Get(event, "operation").None?
      ==> r == Failure(KeyError(JStr("operation")))
    ensures WellFormedRecord(event) ==> r.Success?
  {
    var bodies :- InputBodies(event);
    var outputBody :- OutputBody(event);
    var metadata :- RecordMetadata(event, bodies.0, outputBody);
    // event is a dict once its members have been read, so `in` cannot raise
    var errorCode := if Contains(event, "errorCode").value then Subscript(event, "errorCode").value else JNull;
    Success(Parsed(bodies.0, bodies.1, outputBody, metadata, errorCode))
  }

  /** The metadata of a record split_event accepts, in terms of the record:
      the required members verbatim; the output body's fields, or zero usage
      and latency and no stop reason when there is no truthy output body; the
      request fields only from a truthy inline input body, so never when the
      input is an S3 pointer. */
  lemma SplitMetadata(event: Json)
    requires Split(event).Success?
    ensures var p := Split(event).value;
      && MetaGet(p.metadata, Timestamp) == Get(event, "timestamp")
      && MetaGet(p.metadata, ModelId) == Get(event, "modelId")
      && MetaGet(p.metadata, Operation) == Get(event, "operation")
      && (Truthy(p.outputBody) ==>
            && MetaGet(p.metadata, StopReason) == Get(p.outputBody, "stopReason")
            && MetaGet(p.metadata, Usage) == Get(p.outputBody, "usage")
            && MetaGet(p.metadata, LatencyMs) == GetPath(p.outputBody, ["metrics", "latencyMs"]))
      && (!Truthy(p.outputBody) ==>
            && MetaGet(p.metadata, StopReason) == None
            && MetaGet(p.metadata, Usage) == Some(ZeroUsage)
            && MetaGet(p.metadata, LatencyMs) == Some(JNum(0)))
      && MetaGet(p.metadata, Usage).Some? && MetaGet(p.metadata, LatencyMs).Some?
      && (MetaGet(p.metadata, InferenceConfig).Some? <==>
            Truthy(p.inputBody) && Get(p.inputBody, "inferenceConfig").Some?)
      && (MetaGet(p.metadata, AdditionalModelRequestFields).Some? <==>
            Truthy(p.inputBody) && Get(p.inputBody, "additionalModelRequestFields").Some?)
      && (MetaGet(p.metadata, InferenceConfig).Some? ==>
            MetaGet(p.metadata, InferenceConfig) == Get(p.inputBody, "inferenceConfig"))
      && (MetaGet(p.metadata, AdditionalModelRequestFields).Some? ==>
            MetaGet(p.metadata, AdditionalModelRequestFields) == Get(p.inputBody, "additionalModelRequestFields"))
      && (p.inputS3Path != JNull ==>
            MetaGet(p.metadata, InferenceConfig).None? && MetaGet(p.metadata, AdditionalModelRequestFields).None?)
  {
    var p := Split(event).value;
    RecordMetadataValues(event, p.inputBody, p.outputBody);
  }

  /** split_event's `metadata[...] = event[...]` for the three required
      members. */
  method AddRequired(metadata: Metadata, event: Json) returns (r: PyResult<Metadata>)
    ensures r == StoreRequired(metadata, event)
  {
    var m := metadata;
    var timestamp :- Subscript(event, "timestamp");
    m := Store(m, Timestamp, timestamp);
    var modelId :- Subscript(event, "modelId");
    m := Store(m, ModelId, modelId);
    var operation :- Subscript(event, "operation");
    m := Store(m, Operation, operation);
    return Success(m);
  }

  /** split_event's `if output_body_json:` section of the metadata. */
  method AddOutputMetadata(metadata: Metadata, outputBodyJson: Json) returns (r: PyResult<Metadata>)
    ensures r == StoreOutputMetadata(metadata, outputBodyJson)
  {
    var m := metadata;
    if Truthy(outputBodyJson) {
      var stopReason :- Subscript(outputBodyJson, "stopReason");
      m := Store(m, StopReason, stopReason);
      var usage :- Subscript(outputBodyJson, "usage");
      m := Store(m, Usage, usage);
      var metrics :- Subscript(outputBodyJson, "metrics");
      var latency :- Subscript(metrics, "latencyMs");
      m := Store(m, LatencyMs, latency);
    } else {
      m := Store(m, Usage, ZeroUsage);
      m := Store(m, LatencyMs, JNum(0));
    }
    return Success(m);
  }

  /** split_event's `if input_body_json:` section of the metadata. */
  method AddInputMetadata(metadata: Metadata, inputBodyJson: Json) returns (r: PyResult<Metadata>)
    ensures r == StoreInputMetadata(metadata, inputBodyJson)
  {
    var m := metadata;
    if Truthy(inputBodyJson) {
      var hasConfig :- Contains(inputBodyJson, "inferenceConfig");
      if hasConfig {
        var config :- Subscript(inputBodyJson, "inferenceConfig");
        m := Store(m, InferenceConfig, config);
      }
      // inputBodyJson is a dict, a list or a str here, so `in` cannot raise
      var hasFields := Contains(inputBodyJson, "additionalModelRequestFields").value;
      if hasFields {
        var fields :- Subscript(inputBodyJson, "additionalModelRequestFields");
        m := Store(m, AdditionalModelRequestFields, fields);
      }
    }
    return Success(m);
  }

  /** split_event: json.loads is not modelled, so the caller passes its
      result, None when the message is not valid JSON.  The locals start as
      None and the metadata dict is filled key by key. */
  method SplitEvent(decoded: Option<Json>) returns (r: PyResult<Parsed>)
    ensures decoded.None? ==> r == Failure(DecodeError)
    ensures decoded.Some? ==> r == Split(decoded.value)
  {
    var inputBodyJson := JNull;
    var inputBodyS3Path := JNull;
    var outputBodyJson := JNull;
    var metadata := NoMetadata;
    var errorCode := JNull;

    if decoded.None? {
      return Failure(DecodeError);
    }
    var event := decoded.value;

    var hasInput :- Contains(event, "input");
    if hasInput {
      var input :- Subscript(event, "input");
      var hasInline :- Contains(input, "inputBodyJson");
      if hasInline {
        inputBodyJson :- Subscript(input, "inputBodyJson");
      } else {
        // input is a dict, a list or a str here, so `in` cannot raise
        var hasS3 := Contains(input, "inputBodyS3Path").value;
        if hasS3 {
          inputBodyS3Path :- Subscript(input, "inputBodyS3Path");
        }
      }
    }
    assert InputBodies(event) == Success((inputBodyJson, inputBodyS3Path));

    // `"input" in event` did not raise, so neither does this
    var hasOutput := Contains(event, "output").value;
    if hasOutput {
      var output :- Subscript(event, "output");
      var hasBody :- Contains(output, "outputBodyJson");
      if hasBody {
        outputBodyJson :- Subscript(output, "outputBodyJson");
      }
    }
    assert OutputBody(event) == Success(outputBodyJson);

    metadata :- AddRequired(metadata, event);
    metadata :- AddOutputMetadata(metadata, outputBodyJson);
    metadata :- AddInputMetadata(metadata, inputBodyJson);

    // event is a dict once its members have been read, so `in` cannot raise
    var hasError := Contains(event, "errorCode").value;
    if hasError {
      errorCode := Subscript(event, "errorCode").value;
    }
    return Success(Parsed(inputBodyJson, inputBodyS3Path, outputBodyJson, metadata, errorCode));
  }
}
