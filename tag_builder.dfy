/**
 * The tag row shown above a selected record (write_tag in app.py): four
 * labels with their colours, and a fifth red error label when the record
 * carries a truthy error code.
 */
module TagBuilder {
  import opened Wrappers
  import opened PyJson
  import opened EventParser

  /** The colour names the tag component accepts. */
  datatype Color = Blue | Green | Orange | Gray | Red

  /** One label.  The text around each value (an emoji, the conversion of
      milliseconds to seconds) is not modelled; a label keeps the value it
      shows, the latency as whole milliseconds. */
  datatype Tag =
    | ModelTag(model: Json)
    | LatencyTag(ms: int)
    | TokensTag(total: Json)
    | OperationTag(operation: Json)
    | ErrorTag

  /** The two parallel lists handed to the tag component. */
  datatype TagRow = TagRow(labels: seq<Tag>, colors: seq<Color>)

  /** Python's `metadata[k]`: a KeyError when the dict lacks k. */
  function MetaSubscript(d: Metadata, k: MetaKey): (r: PyResult<Json>)
    ensures r.Success? <==> MetaGet(d, k).Some?
    ensures r.Success? ==> MetaGet(d, k) == Some(r.value)
    ensures r.Failure? ==> r.error == KeyError(JStr(k.Name()))
  {
    if k in d.values then Success(d.values[k]) else Failure(KeyError(JStr(k.Name())))
  }

  /** The least magnitude of an int whose true division by 1000 raises
      OverflowError: 1000 * (2^1024 - 2^970).  2^1024 - 2^970 lies halfway
      between the largest float (2^1024 - 2^971) and 2^1024, and the
      correctly rounded quotient goes to the even 2^1024 there, which is past
      the float range. */
  const OverflowMs: int :=
    179769313486231580793728971405303415079934132710037826936173778980444968292764750946649017977587207096330286416692887910946555547851940402630657488671505820681908902000708383676273854845817711531764475730270069855571366959622842914819860834936475292719074168444365510704342711559699508093042880177904174497792000

  /** `n / 1000` is a float. */
  predicate QuotientFits(n: int)
  {
    -OverflowMs < n < OverflowMs
  }

  /** The latency `metadata['latencyMs'] / 1000` divides: a number whose
      quotient is a float (a bool counts as 0 or 1).  A larger number raises
      OverflowError; dividing anything else raises a TypeError. */
  function LatencyValue(j: Json): (r: PyResult<int>)
    ensures r.Success? <==> (j.JNum? && QuotientFits(j.n)) || j.JBool?
    ensures j.JNum? && QuotientFits(j.n) ==> r == Success(j.n)
    ensures j.JNum? && !QuotientFits(j.n) ==> r == Failure(OverflowError)
    ensures j.JBool? ==> r == Success(if j.b then 1 else 0)
    ensures !j.JNum? && !j.JBool? ==> r == Failure(TypeError)
  {
    match j
    case JNum(n) => if QuotientFits(n) then Success(n) else Failure(OverflowError)
    case JBool(b) => Success(if b then 1 else 0)
    case _ => Failure(TypeError)
  }

  /** The metadata write_tag can show without raising: a model id, a numeric
      latency whose quotient by 1000 is a float, a usage dict with
      `totalTokens`, and an operation. */
  predicate Showable(d: Metadata)
  {
    && MetaGet(d, ModelId).Some?
    && MetaGet(d, LatencyMs).Some?
    && ((MetaGet(d, LatencyMs).value.JNum? && QuotientFits(MetaGet(d, LatencyMs).value.n))
        || MetaGet(d, LatencyMs).value.JBool?)
    && MetaGet(d, Usage).Some? && Get(MetaGet(d, Usage).value, "totalTokens").Some?
    && MetaGet(d, Operation).Some?
  }

  /** The labels and colours write_tag builds from a record's metadata and
      error code. */
  function Tags(metadata: Metadata, errorCode: Json): (r: PyResult<TagRow>)
    ensures r.Success? <==> Showable(metadata)
    ensures r.Success? ==> |r.value.labels| == |r.value.colors|
    ensures r.Success? ==> |r.value.labels| == (if Truthy(errorCode) then 5 else 4)
    ensures r.Success? ==> r.value.colors[..4] == [Blue, Green, Orange, Gray]
    ensures r.Success? ==>
      r.value.labels[..4] ==
        [ ModelTag(MetaGet(metadata, ModelId).value),
          LatencyTag(LatencyValue(MetaGet(metadata, LatencyMs).value).value),
          TokensTag(Get(MetaGet(metadata, Usage).value, "totalTokens").value),
          OperationTag(MetaGet(metadata, Operation).value) ]
    ensures r.Success? && Truthy(errorCode) ==> r.value.labels[4] == ErrorTag && r.value.colors[4] == Red
  {
    var model :- MetaSubscript(metadata, ModelId);
    var latencyMs :- MetaSubscript(metadata, LatencyMs);
    var latency :- LatencyValue(latencyMs);
    var usage :- MetaSubscript(metadata, Usage);
    var total :- Subscript(usage, "totalTokens");
    var operation :- MetaSubscript(metadata, Operation);
    var labels := [ModelTag(model), LatencyTag(latency), TokensTag(total), OperationTag(operation)];
    var colors := [Blue, Green, Orange, Gray];
    if Truthy(errorCode) then Success(TagRow(labels + [ErrorTag], colors + [Red]))
    else Success(TagRow(labels, colors))
  }

  /** write_tag's list building: the two lists start with four entries and
      the error entry is appended to both. */
  method BuildTags(metadata: Metadata, errorCode: Json) returns (r: PyResult<TagRow>)
    ensures r == Tags(metadata, errorCode)
  {
    var model :- MetaSubscript(metadata, ModelId);
    var latencyMs :- MetaSubscript(metadata, LatencyMs);
    var latency :- LatencyValue(latencyMs);
    var usage :- MetaSubscript(metadata, Usage);
    var total :- Subscript(usage, "totalTokens");
    var operation :- MetaSubscript(metadata, Operation);
    var tags := [ModelTag(model), LatencyTag(latency), TokensTag(total), OperationTag(operation)];
    var colorName := [Blue, Green, Orange, Gray];
    if Truthy(errorCode) {
      tags := tags + [ErrorTag];
      colorName := colorName + [Red];
    }
    return Success(TagRow(tags, colorName));
  }

  /** The substituted usage counts zero tokens in total. */
  lemma ZeroUsageTotal()
    ensures Get(ZeroUsage, "totalTokens") == Some(JNum(0))
  {
    assert ZeroUsage.fields[2] == ("totalTokens", JNum(0));
  }

  /** Metadata holding the substituted zero usage and latency gets its tags,
      showing zero latency and zero tokens. */
  lemma TagsOfDefaults(metadata: Metadata, errorCode: Json)
    requires MetaGet(metadata, ModelId).Some? && MetaGet(metadata, Operation).Some?
    requires MetaGet(metadata, Usage) == Some(ZeroUsage) && MetaGet(metadata, LatencyMs) == Some(JNum(0))
    ensures Tags(metadata, errorCode).Success?
    ensures Tags(metadata, errorCode).value.labels[1] == LatencyTag(0)
    ensures Tags(metadata, errorCode).value.labels[2] == TokensTag(JNum(0))
  {
    ZeroUsageTotal();
  }

  /** A record without a truthy output body always gets its tags, showing
      zero latency and zero tokens. */
  lemma TagsWithoutOutput(event: Json)
    requires Split(event).Success? && !Truthy(Split(event).value.outputBody)
    ensures var p := Split(event).value;
      && Tags(p.metadata, p.errorCode).Success?
      && Tags(p.metadata, p.errorCode).value.labels[1] == LatencyTag(0)
      && Tags(p.metadata, p.errorCode).value.labels[2] == TokensTag(JNum(0))
  {
    var p := Split(event).value;
    SplitMetadata(event);
    TagsOfDefaults(p.metadata, p.errorCode);
  }

  /** The error tag of a record split_event accepts: shown exactly when the
      record's own `errorCode` member is truthy. */
  lemma ErrorTagOfRecord(event: Json)
    requires Split(event).Success?
    requires Tags(Split(event).value.metadata, Split(event).value.errorCode).Success?
    ensures var row := Tags(Split(event).value.metadata, Split(event).value.errorCode).value;
      && (|row.labels| == 5 <==> Truthy(Get(event, "errorCode").GetOr(JNull)))
      && (|row.labels| == 5 ==> row.labels[4] == ErrorTag && row.colors[4] == Red)
  {
  }

  /** A record whose output body is truthy gets its tags exactly when the
      body's latency is a number whose quotient by 1000 is a float and its
      usage has `totalTokens`. */
  lemma TagsWithOutput(event: Json)
    requires Split(event).Success? && Truthy(Split(event).value.outputBody)
    ensures var p := Split(event).value;
      var latency := GetPath(p.outputBody, ["metrics", "latencyMs"]).value;
      Tags(p.metadata, p.errorCode).Success? <==>
        ((latency.JNum? && QuotientFits(latency.n)) || latency.JBool?)
        && Get(Get(p.outputBody, "usage").value, "totalTokens").Some?
  {
    SplitMetadata(event);
  }
}
