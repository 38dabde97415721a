/** Per-intent dispatch and result tagging (`handleIntents`). The tracker
    fetch is a parameter, and so is the final language-model call that
    composes the reply from the summary and the tagged results (`Err` when it
    throws). */
module IntentHandler {
  import opened Common
  import opened JiraTypes
  import opened IntentDetection
  import opened JiraFunctions

  const MissingTicketIdError := "Missing required parameter: ticketId"
  const ExecutionFailurePrefix := "Failed to execute "
  const ProcessingFailedReply := "Sorry, I encountered an error while processing your request."

  /** What an intent's call returns: a projection's record, or whatever an
      inherited member of `jiraFunctions` returns. */
  datatype IntentData =
    | StatusData(status: TicketStatus)
    | DetailsData(details: TicketDetails)
    | InheritedData(value: InheritedValue)

  /** `{intent, data}` or `{intent, error}`. */
  datatype IntentResult = Succeeded(intent: string, data: IntentData) | Failed(intent: string, error: string)

  datatype Handled = Handled(results: seq<IntentResult>, reply: string)

  /** `intent.parameters[0]?.value`: only the first parameter is read. */
  function TicketIdOf(i: DetectedIntent): (v: Option<string>)
    ensures |i.parameters| == 0 ==> v == None
    ensures |i.parameters| > 0 ==> v == i.parameters[0].value
  {
    if |i.parameters| == 0 then None else i.parameters[0].value
  }

  /** One intent's result. A missing or empty ticket id is reported before
      any call; otherwise the name is looked up on `jiraFunctions`, own
      projections and inherited members alike, and a call that throws
      (a failing projection, an inherited non-function, a name that is not
      there at all) becomes the execution-failure error naming the intent. */
  function ExecuteIntent(i: DetectedIntent, getIssue: string -> Result<Issue>): (r: IntentResult)
    ensures r.intent == i.name
    ensures !Truthy(TicketIdOf(i)) <==> r == Failed(i.name, MissingTicketIdError)
    ensures Truthy(TicketIdOf(i)) && r.Failed? ==> r.error == ExecutionFailurePrefix + i.name
    ensures Truthy(TicketIdOf(i)) && i.name == "getStatus" ==>
              (r.Succeeded? <==> GetStatus(TicketIdOf(i).value, getIssue).Ok?)
              && (r.Succeeded? ==> r.data == StatusData(GetStatus(TicketIdOf(i).value, getIssue).value))
    ensures Truthy(TicketIdOf(i)) && i.name == "getDetails" ==>
              (r.Succeeded? <==> GetDetails(TicketIdOf(i).value, getIssue).Ok?)
              && (r.Succeeded? ==> r.data == DetailsData(GetDetails(TicketIdOf(i).value, getIssue).value))
    ensures Truthy(TicketIdOf(i)) && i.name in InheritedNames ==>
              (r.Succeeded? <==> i.name !in NotCallableNames)
              && (r.Succeeded? ==> r.data == InheritedData(CallInherited(i.name, TicketIdOf(i).value).value))
    ensures r.Succeeded? <==> Truthy(TicketIdOf(i)) && IsValidJiraFunction(i.name)
                              && (i.name == "getStatus" ==> GetStatus(TicketIdOf(i).value, getIssue).Ok?)
                              && (i.name == "getDetails" ==> GetDetails(TicketIdOf(i).value, getIssue).Ok?)
                              && i.name !in NotCallableNames
    ensures r.Succeeded? && !r.data.InheritedData? ==> i.name in FunctionNames
  {
    var id := TicketIdOf(i);
    assert (ExecutionFailurePrefix + i.name)[0] != MissingTicketIdError[0];
    if !Truthy(id) then Failed(i.name, MissingTicketIdError)
    else if i.name == "getStatus" then
      match GetStatus(id.value, getIssue)
      case Ok(s) => Succeeded(i.name, StatusData(s))
      case Err(_) => Failed(i.name, ExecutionFailurePrefix + i.name)
    else if i.name == "getDetails" then
      match GetDetails(id.value, getIssue)
      case Ok(d) => Succeeded(i.name, DetailsData(d))
      case Err(_) => Failed(i.name, ExecutionFailurePrefix + i.name)
    else if i.name in InheritedNames then
      match CallInherited(i.name, id.value)
      case Ok(v) => Succeeded(i.name, InheritedData(v))
      case Err(_) => Failed(i.name, ExecutionFailurePrefix + i.name)
    else Failed(i.name, ExecutionFailurePrefix + i.name)
  }

  /** An intent named `toString` with a ticket id succeeds, with the object's
      tag as its data; one named `__proto__` fails. */
  lemma InheritedNamesReachPrototype(i: DetectedIntent, getIssue: string -> Result<Issue>)
    requires Truthy(TicketIdOf(i))
    ensures i.name == "toString" ==> ExecuteIntent(i, getIssue) == Succeeded("toString", InheritedData(ObjectTag))
    ensures i.name == "__proto__" ==> ExecuteIntent(i, getIssue) == Failed("__proto__", ExecutionFailurePrefix + "__proto__")
  {
  }

  /** `handleIntents`: one result per intent, in intent order, each tagged
      with its intent's name; the reply is whatever the composing call
      returns, or the fixed apology when it throws. */
  function HandleIntents(
    intents: seq<DetectedIntent>, summary: string, getIssue: string -> Result<Issue>,
    compose: (string, seq<IntentResult>) -> Result<string>): (h: Handled)
    ensures |h.results| == |intents|
    ensures forall k :: 0 <= k < |intents| ==> h.results[k] == ExecuteIntent(intents[k], getIssue)
    ensures forall k :: 0 <= k < |intents| ==>
              h.results[k].intent == intents[k].name
              && (!Truthy(TicketIdOf(intents[k])) ==> h.results[k] == Failed(intents[k].name, MissingTicketIdError))
    ensures compose(summary, h.results).Ok? ==> h.reply == compose(summary, h.results).value
    ensures compose(summary, h.results).Err? ==> h.reply == ProcessingFailedReply
  {
    var results := Map(intents, (i: DetectedIntent) => ExecuteIntent(i, getIssue));
    Handled(results, match compose(summary, results) case Ok(s) => s case Err(_) => ProcessingFailedReply)
  }

  /** One intent's failure is confined to its own slot: two batches that share
      the intent at position `k` produce the same result there, whatever the
      other intents are. */
  lemma ResultsAreIndependent(
    a: seq<DetectedIntent>, b: seq<DetectedIntent>, k: nat, summary: string,
    getIssue: string -> Result<Issue>, compose: (string, seq<IntentResult>) -> Result<string>)
    requires k < |a| && k < |b| && a[k] == b[k]
    ensures HandleIntents(a, summary, getIssue, compose).results[k]
            == HandleIntents(b, summary, getIssue, compose).results[k]
  {
  }

  /** The intents `detectIntents` lets through always reach an own projection
      of `jiraFunctions`, never an inherited name; so an intent with a ticket
      id fails only when its projection does. */
  lemma DetectedIntentsReachProjections(
    response: Result<string>, parse: string -> Parsed, getIssue: string -> Result<Issue>)
    ensures forall i :: i in DetectIntents(response, parse) ==>
              IsValidJiraFunction(i.name)
              && (Truthy(TicketIdOf(i)) && ExecuteIntent(i, getIssue).Failed? ==>
                    (i.name == "getStatus" && GetStatus(TicketIdOf(i).value, getIssue).Err?)
                    || (i.name == "getDetails" && GetDetails(TicketIdOf(i).value, getIssue).Err?))
  {
  }

  /** The composing call is `generateAIResponse` in text format; with its
      return expression as written the reply is never the model's text, only
      `{}`, the no-response text or the generation apology. */
  lemma ReplyAsWritten(
    intents: seq<DetectedIntent>, summary: string, getIssue: string -> Result<Issue>,
    completion: Result<Option<string>>)
    ensures var compose := (s: string, rs: seq<IntentResult>) => Ok(GenerateAsWritten(completion, false));
            HandleIntents(intents, summary, getIssue, compose).reply
              in {EmptyJsonText, NoResponseText, GenerationFailedText}
  {
  }
}
