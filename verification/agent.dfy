/** Message assembly in `runJiraToolAgent`: the model's response followed by
    one tool message per tool call. The model call is a parameter (`Err` when
    it throws), as are the tool-running inputs of `RunTool`. */
module Agent {
  import opened Common
  import opened ProjectRegistry
  import opened ToolRunner

  const UnknownErrorText := "Unknown error occurred"

  datatype AssistantMessage = AssistantMessage(content: Option<string>, toolCalls: Option<seq<ToolCall>>)

  datatype AgentMessage = Assistant(message: AssistantMessage) | ToolMessage(content: string, toolCallId: string)

  /** The fixed wording of the system prompt around the key list. */
  const PromptOpening := "You are an ai agent that can analyze a slack thread"
    + " and use Jira tools to get relevant information requested"
    + " in the thread. The more recent the message in the thread,"
    + " the more relevant the information."
    + " The Jira project keys are: "
  const PromptClosing := " (be aware that users sometimes use incorrect casing e.g. \"Jira-6\" instead of \"JIRA-6\")"
    + " The slack thread summary is: "

  /** The system prompt: six fixed phrases joined by spaces, the fifth
      naming the registered keys joined by ", " and the sixth carrying the
      thread summary. */
  function AgentPrompt(keys: seq<string>, summary: string): string {
    PromptOpening + Join(keys, ", ") + PromptClosing + summary
  }

  /** `typeof output === 'string' ? output : JSON.stringify(output)`. */
  function OutputText(o: ToolOutput): string {
    match o
    case Text(s) => s
    case Structured(j) => j
  }

  /** The tool message content as written, with its check for error wordings
      whose branch builds the same message as the normal path. */
  function ToolContentAsWritten(outcome: ToolOutcome): string {
    match outcome
    case Returned(o) =>
      var outputStr := OutputText(o);
      if Contains(outputStr, "does not exist") || Contains(outputStr, "Unable to access") then outputStr
      else OutputText(o)
    case Threw(msg) => "Error: " + OrElse(msg, UnknownErrorText)
  }

  /** A tool that returns contributes its text verbatim (strings) or
      serialised (objects); one that throws contributes `Error: ` and its
      message, or the unknown-error text when the message is missing or
      empty. The error-wording check changes nothing. */
  lemma ToolContentIsOutputOrError(outcome: ToolOutcome)
    ensures outcome.Returned? ==> ToolContentAsWritten(outcome) == OutputText(outcome.output)
    ensures outcome.Threw? && Truthy(outcome.message) ==>
              ToolContentAsWritten(outcome) == "Error: " + outcome.message.value
    ensures outcome.Threw? && !Truthy(outcome.message) ==>
              ToolContentAsWritten(outcome) == "Error: " + UnknownErrorText
  {
  }

  /** The tool message answering one call. */
  function ToolMessageFor(
    call: ToolCall,
    parseArgs: string -> Result<ToolArgs>,
    getIssue: (Option<string>, Option<string>, Option<string>) -> ClientCall,
    getChangelog: (Option<string>, Option<string>) -> ClientCall): (m: AgentMessage)
    ensures m.ToolMessage? && m.toolCallId == call.id
  {
    ToolMessage(ToolContentAsWritten(RunTool(call, parseArgs, getIssue, getChangelog)), call.id)
  }

  /** `runJiraToolAgent`. It throws when the registry is not ready (before
      the model is asked) and when the model call throws; otherwise the list
      starts with the response and, if it carries tool calls, continues with
      one tool message per call, in call order, answering that call's id. */
  function RunJiraToolAgent(
    registry: Manager,
    summary: string,
    runLLM: string -> Result<AssistantMessage>,
    parseArgs: string -> Result<ToolArgs>,
    getIssue: (Option<string>, Option<string>, Option<string>) -> ClientCall,
    getChangelog: (Option<string>, Option<string>) -> ClientCall): (r: Result<seq<AgentMessage>>)
    ensures !registry.initialized ==> r == Err(NotInitializedMessage)
    ensures registry.initialized && runLLM(AgentPrompt(registry.projectKeys, summary)).Err? ==> r.Err?
    ensures r.Ok? ==>
              var resp := runLLM(AgentPrompt(registry.projectKeys, summary)).value;
              var calls := if resp.toolCalls.Some? then resp.toolCalls.value else [];
              && |r.value| == 1 + |calls|
              && r.value[0] == Assistant(resp)
              && forall k :: 0 <= k < |calls| ==>
                   r.value[k + 1] == ToolMessageFor(calls[k], parseArgs, getIssue, getChangelog)
    ensures r.Ok? <==> registry.initialized && runLLM(AgentPrompt(registry.projectKeys, summary)).Ok?
  {
    match GetProjectKeys(registry)
    case Err(e) => Err(e)
    case Ok(keys) =>
      var prompt := AgentPrompt(keys, summary);
      match runLLM(prompt)
      case Err(e) => Err(e)
      case Ok(resp) =>
        if resp.toolCalls.None? then Ok([Assistant(resp)])
        else
          var calls := resp.toolCalls.value;
          var tools := Map(calls, (c: ToolCall) => ToolMessageFor(c, parseArgs, getIssue, getChangelog));
          var out := [Assistant(resp)] + tools;
          assert out[1..] == tools;
          Ok(out)
  }

  /** With no tool calls the agent returns exactly the response. */
  lemma NoToolCallsGiveResponseOnly(
    registry: Manager, summary: string, runLLM: string -> Result<AssistantMessage>,
    parseArgs: string -> Result<ToolArgs>,
    getIssue: (Option<string>, Option<string>, Option<string>) -> ClientCall,
    getChangelog: (Option<string>, Option<string>) -> ClientCall)
    requires registry.initialized
    requires runLLM(AgentPrompt(registry.projectKeys, summary)).Ok?
    requires runLLM(AgentPrompt(registry.projectKeys, summary)).value.toolCalls.None?
    ensures RunJiraToolAgent(registry, summary, runLLM, parseArgs, getIssue, getChangelog)
            == Ok([Assistant(runLLM(AgentPrompt(registry.projectKeys, summary)).value)])
  {
  }

  /** A call naming no known tool yields `Error: Unknown tool: <name>` in its
      own slot, and leaves its neighbours as they would be anyway. */
  lemma UnknownToolAnswersInItsSlot(
    call: ToolCall, parseArgs: string -> Result<ToolArgs>,
    getIssue: (Option<string>, Option<string>, Option<string>) -> ClientCall,
    getChangelog: (Option<string>, Option<string>) -> ClientCall)
    requires parseArgs(call.arguments).Ok?
    requires !(call.name in {GetIssueTool, GetChangelogTool})
    ensures ToolMessageFor(call, parseArgs, getIssue, getChangelog)
            == ToolMessage("Error: " + UnknownToolPrefix + call.name, call.id)
  {
    assert (UnknownToolPrefix + call.name) != "";
  }
}
