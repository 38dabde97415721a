/** Tool-name dispatch and the error wording of the two tracker tools
    (`runTool`, `getIssue`, `getIssueChangelog`). `JSON.parse` of the call's
    arguments and the tracker client are parameters. */
module ToolRunner {
  import opened Common

  const GetIssueTool := "getJiraIssue"
  const GetChangelogTool := "getIssueChangelog"
  const UnknownToolPrefix := "Unknown tool: "

  /** A value a tool hands back: a string, or an object standing for itself
      through its `JSON.stringify` text. */
  datatype ToolOutput = Text(text: string) | Structured(json: string)

  /** How a tracker client call behaves. The helpers return the client's
      promise without awaiting it, so only a throw before the promise exists
      (`SyncThrow`) reaches their `catch`; a rejection travels on unchanged. */
  datatype ClientCall =
    | SyncThrow(statusCode: Option<int>, message: Option<string>)
    | Resolves(value: ToolOutput)
    | Rejects(message: Option<string>)

  /** What a tool run amounts to: a value, or a thrown error with its
      `message` property. */
  datatype ToolOutcome = Returned(output: ToolOutput) | Threw(message: Option<string>)

  /** The parsed arguments object; every field may be absent. */
  datatype ToolArgs = ToolArgs(
    issueIdOrKey: Option<string>,
    fields: Option<string>,
    expand: Option<string>,
    issueNumber: Option<string>,
    startAt: Option<string>)

  datatype ToolCall = ToolCall(id: string, name: string, arguments: string)

  /** Which helper is speaking; only the wording differs. */
  datatype Subject = IssueSubject | ChangelogSubject

  function SubjectText(s: Subject, issue: Option<string>): string {
    (if s.ChangelogSubject? then "changelog for " else "") + "Jira issue " + Render(issue)
  }

  function NotFoundText(issue: Option<string>): string {
    "Jira issue " + Render(issue) + " does not exist or you don't have permission to access it."
  }

  function UnauthorizedText(s: Subject, issue: Option<string>): string {
    "Unable to access " + SubjectText(s, issue) + " due to authentication/authorization issues."
  }

  function OtherErrorText(s: Subject, issue: Option<string>, message: Option<string>): string {
    "Error accessing " + SubjectText(s, issue) + ": " + Render(message)
  }

  /** The `catch` of either helper: 404 first, then 401 or 403, then the
      generic wording with the error's message. */
  function ClassifyError(s: Subject, issue: Option<string>, statusCode: Option<int>, message: Option<string>): (t: string)
    ensures statusCode == Some(404) ==> t == NotFoundText(issue)
    ensures statusCode in {Some(401), Some(403)} ==> t == UnauthorizedText(s, issue)
    ensures !(statusCode in {Some(404), Some(401), Some(403)}) ==> t == OtherErrorText(s, issue, message)
  {
    if statusCode == Some(404) then NotFoundText(issue)
    else if statusCode == Some(401) || statusCode == Some(403) then UnauthorizedText(s, issue)
    else OtherErrorText(s, issue, message)
  }

  /** `getIssue` / `getIssueChangelog` followed by the `await` in `runTool`:
      a synchronous throw is classified into a string result; a resolved
      value is passed on; a rejection surfaces as the client's own error. */
  function CallHelper(s: Subject, issue: Option<string>, call: ClientCall): (o: ToolOutcome)
    ensures call.SyncThrow? ==> o == Returned(Text(ClassifyError(s, issue, call.statusCode, call.message)))
    ensures call.Resolves? ==> o == Returned(call.value)
    ensures call.Rejects? ==> o == Threw(call.message)
  {
    match call
    case SyncThrow(code, msg) => Returned(Text(ClassifyError(s, issue, code, msg)))
    case Resolves(v) => Returned(v)
    case Rejects(msg) => Threw(msg)
  }

  /** `runTool`: the arguments are parsed first (a parse failure throws even
      for an unknown tool), then the name picks the helper, which receives
      exactly the argument fields it reads. */
  function RunTool(
    call: ToolCall,
    parseArgs: string -> Result<ToolArgs>,
    getIssue: (Option<string>, Option<string>, Option<string>) -> ClientCall,
    getChangelog: (Option<string>, Option<string>) -> ClientCall): (o: ToolOutcome)
    ensures parseArgs(call.arguments).Err? ==> o == Threw(Some(parseArgs(call.arguments).msg))
    ensures parseArgs(call.arguments).Ok? && call.name == GetIssueTool ==>
              var a := parseArgs(call.arguments).value;
              o == CallHelper(IssueSubject, a.issueIdOrKey, getIssue(a.issueIdOrKey, a.fields, a.expand))
    ensures parseArgs(call.arguments).Ok? && call.name == GetChangelogTool ==>
              var a := parseArgs(call.arguments).value;
              o == CallHelper(ChangelogSubject, a.issueNumber, getChangelog(a.issueNumber, a.startAt))
    ensures parseArgs(call.arguments).Ok? && !(call.name in {GetIssueTool, GetChangelogTool}) ==>
              o == Threw(Some(UnknownToolPrefix + call.name))
  {
    match parseArgs(call.arguments)
    case Err(e) => Threw(Some(e))
    case Ok(a) =>
      if call.name == GetIssueTool then
        CallHelper(IssueSubject, a.issueIdOrKey, getIssue(a.issueIdOrKey, a.fields, a.expand))
      else if call.name == GetChangelogTool then
        CallHelper(ChangelogSubject, a.issueNumber, getChangelog(a.issueNumber, a.startAt))
      else Threw(Some(UnknownToolPrefix + call.name))
  }

  /** The 404 wording is shared by both helpers, the other two name the
      changelog when it is the subject; and the three wordings never collide,
      so the wording alone tells which class of failure occurred. */
  lemma WordingsAreDistinct(s: Subject, issue: Option<string>, message: Option<string>)
    ensures ClassifyError(IssueSubject, issue, Some(404), message) == ClassifyError(ChangelogSubject, issue, Some(404), message)
    ensures NotFoundText(issue) != UnauthorizedText(s, issue)
    ensures NotFoundText(issue) != OtherErrorText(s, issue, message)
    ensures UnauthorizedText(s, issue) != OtherErrorText(s, issue, message)
  {
    assert NotFoundText(issue)[0] == 'J';
    assert UnauthorizedText(s, issue)[0] == 'U';
    assert OtherErrorText(s, issue, message)[0] == 'E';
  }

  /** A rejected promise is never classified: whatever its status code, the
      tool run throws the client's message instead of returning a wording. */
  lemma RejectionsAreNotClassified(
    call: ToolCall, parseArgs: string -> Result<ToolArgs>,
    getIssue: (Option<string>, Option<string>, Option<string>) -> ClientCall,
    getChangelog: (Option<string>, Option<string>) -> ClientCall)
    requires parseArgs(call.arguments).Ok? && call.name == GetIssueTool
    requires var a := parseArgs(call.arguments).value; getIssue(a.issueIdOrKey, a.fields, a.expand).Rejects?
    ensures RunTool(call, parseArgs, getIssue, getChangelog).Threw?
  {
  }
}
