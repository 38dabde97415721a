/** The check and filter `detectIntents` applies to the classifier's answer.
    The language-model call and `JSON.parse` are inputs: the answer arrives as
    a `Result` (an `Err` for a call that threw) and the parser as a function
    from text to the parsed shape. */
module IntentDetection {
  import opened Common
  import opened IntentCatalog

  datatype ParameterValue = ParameterValue(name: string, value: Option<string>)

  /** One classifier verdict. Confidence is a JSON number, modelled as a real. */
  datatype DetectedIntent = DetectedIntent(name: string, parameters: seq<ParameterValue>, confidence: real)

  /** What `result.intents` holds: absent (or falsy), present but not an array,
      or an array of verdicts. */
  datatype IntentsField = FieldMissing | FieldNotArray | FieldArray(items: seq<DetectedIntent>)

  /** The outcome of `JSON.parse`: a throw (which includes `null`, whose
      `.intents` read throws) or an object. */
  datatype Parsed = ParseFailed | ParsedObject(intents: IntentsField)

  const ConfidenceThreshold: real := 0.7

  /** The filter's predicate, one conjunct per condition of the source. */
  predicate Survives(i: DetectedIntent) {
    i.name != UnknownIntent && i.confidence > ConfidenceThreshold && InCatalog(i.name)
  }

  /** `detectIntents`: every failure before or during parsing and every
      malformed `intents` field yields the empty list; otherwise the survivors
      of the filter, in input order. */
  function DetectIntents(response: Result<string>, parse: string -> Parsed): (r: seq<DetectedIntent>)
    ensures response.Err? ==> r == []
    ensures response.Ok? && parse(response.value).ParseFailed? ==> r == []
    ensures (response.Ok? && parse(response.value).ParsedObject?
             && !parse(response.value).intents.FieldArray?) ==> r == []
    ensures (response.Ok? && parse(response.value).ParsedObject?
             && parse(response.value).intents.FieldArray?) ==>
              var items := parse(response.value).intents.items;
              && IsSubseq(r, items)
              && (forall i :: multiset(r)[i] == if Survives(i) then multiset(items)[i] else 0)
              && forall i :: i in r <==> i in items && Survives(i)
    ensures forall i :: i in r ==> i.name in {"getStatus", "getDetails"} && i.confidence > 0.7
  {
    if response.Err? then []
    else
      match parse(response.value)
      case ParseFailed => []
      case ParsedObject(FieldArray(items)) =>
        CatalogShape();
        Filter(items, Survives)
      case ParsedObject(_) => []
  }

  /** A verdict at exactly the threshold is dropped, one just above it kept. */
  lemma ThresholdIsStrict(name: string, ps: seq<ParameterValue>, parse: string -> Parsed, text: string)
    requires name in {"getStatus", "getDetails"}
    requires parse(text) == ParsedObject(FieldArray([
               DetectedIntent(name, ps, 0.7), DetectedIntent(name, ps, 0.71)]))
    ensures DetectIntents(Ok(text), parse) == [DetectedIntent(name, ps, 0.71)]
  {
    CatalogShape();
    var a := DetectedIntent(name, ps, 0.7);
    var b := DetectedIntent(name, ps, 0.71);
    assert [a, b][1..] == [b];
    assert [b][1..] == [];
    assert InCatalog(name);
  }

  /** Names outside the catalog and `unknown` never pass, whatever their
      confidence. */
  lemma UnknownAndForeignDropped(i: DetectedIntent)
    requires i.name == UnknownIntent || !(i.name in {"getStatus", "getDetails", UnknownIntent})
    ensures !Survives(i)
  {
    CatalogShape();
  }

  // ---------------------------------------------------------------------------
  // The text the classifier call hands back (`generateAIResponse`)

  const GenerationFailedText := "Sorry, I encountered an error while generating a response."
  const NoResponseText := "No response generated."
  const EmptyJsonText := "{}"

  /** The return expression as written: `content || isJson ? '{}' : '…'`
      parses as `(content || isJson) ? '{}' : '…'`, so the model's content is
      never returned. `completion` is `Err` when the call threw. */
  function GenerateAsWritten(completion: Result<Option<string>>, jsonFormat: bool): (r: string)
    ensures completion.Err? ==> r == GenerationFailedText
    ensures completion.Ok? ==> r in {EmptyJsonText, NoResponseText}
  {
    if completion.Err? then GenerationFailedText
    else if Truthy(completion.value) || jsonFormat then EmptyJsonText
    else NoResponseText
  }

  /** The evidently intended expression, `content || (isJson ? '{}' : '…')`. */
  function Generate(completion: Result<Option<string>>, jsonFormat: bool): (r: string)
    ensures completion.Ok? && Truthy(completion.value) ==> r == completion.value.value
    ensures completion.Ok? && !Truthy(completion.value) ==>
              r == (if jsonFormat then EmptyJsonText else NoResponseText)
    ensures completion.Err? ==> r == GenerationFailedText
  {
    if completion.Err? then GenerationFailedText
    else OrElse(completion.value, if jsonFormat then EmptyJsonText else NoResponseText)
  }

  /** With the expression as written and the JSON response format that
      `detectIntents` requests, no intent is ever detected: the classifier's
      answer is always `{}` (which has no `intents`) or the apology text
      (which is not JSON), whatever the model said. */
  lemma DetectionNeverFiresAsWritten(completion: Result<Option<string>>, parse: string -> Parsed)
    requires parse(EmptyJsonText) == ParsedObject(FieldMissing)
    requires parse(GenerationFailedText) == ParseFailed
    ensures DetectIntents(Ok(GenerateAsWritten(completion, true)), parse) == []
  {
  }

  /** With the intended expression the model's verdicts reach the filter: a
      single confident `getStatus` verdict comes through unchanged. */
  lemma DetectionFiresWhenIntended(content: string, parse: string -> Parsed, v: DetectedIntent)
    requires content != ""
    requires v.name == "getStatus" && v.confidence > 0.7
    requires parse(content) == ParsedObject(FieldArray([v]))
    ensures DetectIntents(Ok(Generate(Ok(Some(content)), true)), parse) == [v]
  {
    CatalogShape();
    assert InCatalog(v.name);
    assert [v][1..] == [];
  }
}
