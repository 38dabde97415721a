/** The `app_mention` handler of the single-file bot (`slack.ts`): post a
    placeholder in the thread, summarise the thread, run the tool agent on
    the summary, ask the model with a system prompt naming the mentioning
    user, then delete the placeholder and reply under the mention. Any throw
    inside the `try` turns into the fixed failure reply. The platform, the
    profiles, the timestamp rendering and the model calls are parameters. */
module AppMention {
  import opened Common
  import opened SlackTypes
  import opened ThreadSummary
  import opened ProjectRegistry
  import opened ToolRunner
  import opened Agent
  import opened AiResponse
  import opened BotInteraction

  const FailedText := "AI failed to respond"

  /** The system prompt: its sentences joined with single spaces, the
      tracker host in the link example and the mentioning user's name in
      the middle. */
  const PromptHead := "You are a helpful slack bot assistant that integrates with Jira. You have access to Jira data provided by a Jira tool agent in the messages. Use this Jira data to answer questions asked by users in slack threads. Please format your response as a slack message. Whenever referencing Jira issues, please use the issue key and a link like this: <https://"
  const LinkTail := "/browse/KEY-123|KEY-12 (Issue Title - only if it is available, don't make up a title)>. The user who mentioned you is: "
  const PromptTail := " If the user asks about time related information, please include the time in the response, not just the date. The ultimate goal is to keep the answer as concise as possible, while being helpful and accurate."

  function SystemPrompt(host: string, userName: string): string {
    PromptHead + host + LinkTail + userName + PromptTail
  }

  /** What the handler consults: the thread (`conversations.replies`),
      profiles (`users.info`), the ISO rendering of a timestamp, the tool
      agent's registry, model call and tool clients, the tracker host, and
      the final model call (`runLLM`, its `content`, `Err` when it throws). */
  datatype Deps = Deps(
    replies: Replies,
    users: string -> UserInfo,
    iso: Option<string> -> Option<string>,
    registry: Manager,
    agentLLM: string -> Result<AssistantMessage>,
    parseArgs: string -> Result<ToolArgs>,
    getIssue: (Option<string>, Option<string>, Option<string>) -> ClientCall,
    getChangelog: (Option<string>, Option<string>) -> ClientCall,
    host: string,
    llm: (string, seq<AgentMessage>) -> Result<Option<string>>)

  /** The agent's messages for a thread summary. */
  function AgentMessages(summary: string, deps: Deps): Result<seq<AgentMessage>> {
    RunJiraToolAgent(deps.registry, summary, deps.agentLLM, deps.parseArgs, deps.getIssue, deps.getChangelog)
  }

  /** The body of the `try` once the system prompt and the summary are
      built (neither throws): the model's content, or the error that ended
      it. The final model call sees the prompt and the agent's messages. */
  function Answer(prompt: string, summary: string, deps: Deps): (r: Result<Option<string>>)
    ensures AgentMessages(summary, deps).Err? ==> r.Err?
    ensures AgentMessages(summary, deps).Ok? ==> r == deps.llm(prompt, AgentMessages(summary, deps).value)
  {
    match AgentMessages(summary, deps)
    case Err(e) => Err(e)
    case Ok(messages) => deps.llm(prompt, messages)
  }

  /** The thread's summary, rendered with the same profiles and timestamps. */
  function MentionSummary(deps: Deps): string {
    GetSummarizedThreadMessages(deps.replies, deps.users, deps.iso)
  }

  /** The answer for a mention: the thread's summary goes to the agent, and
      the final model call sees the system prompt naming the mentioning
      user, followed by the agent's messages. */
  function MentionAnswer(ev: MentionEvent, deps: Deps): (r: Result<Option<string>>)
    ensures AgentMessages(MentionSummary(deps), deps).Err? ==> r.Err?
    ensures AgentMessages(MentionSummary(deps), deps).Ok? ==>
              r == deps.llm(SystemPrompt(deps.host, GetUserName(ev.user, deps.users)),
                            AgentMessages(MentionSummary(deps), deps).value)
  {
    Answer(SystemPrompt(deps.host, GetUserName(ev.user, deps.users)), MentionSummary(deps), deps)
  }

  /** The system prompt carries the tracker host and the user's name at fixed
      places, so different users get different prompts. */
  lemma PromptNamesUser(host: string, userName: string)
    ensures var p := SystemPrompt(host, userName);
      var at := |PromptHead| + |host| + |LinkTail|;
      && p[|PromptHead|..|PromptHead| + |host|] == host
      && at + |userName| <= |p| && p[at..at + |userName|] == userName
      && p[at + |userName|..] == PromptTail
  {
    var p := SystemPrompt(host, userName);
    var at := |PromptHead| + |host| + |LinkTail|;
    assert p == (PromptHead + host + LinkTail) + userName + PromptTail;
  }

  /** The reply text: the content with `**` turned into `*`, the failure
      text when the content is missing or empty, and the same failure text
      (unconverted) when the `try` threw. */
  function ReplyText(answer: Result<Option<string>>): (t: string)
    ensures answer.Err? ==> t == FailedText
    ensures answer.Ok? ==> t == ParseAIResponse(OrElse(answer.value, FailedText))
  {
    match answer
    case Err(_) => FailedText
    case Ok(content) => ParseAIResponse(OrElse(content, FailedText))
  }

  /** The handler, given what its `try` produced. The placeholder goes to
      `thread_ts || ts`; posting it is outside the `try`, so its failure is
      the handler's throw. The reply and the deletion run together; they are
      listed deletion first. */
  function OnAppMention(ev: MentionEvent, posted: Result<Option<string>>, answer: Result<Option<string>>): (o: Outcome)
    ensures |o.effects| >= 1 && o.effects[0] == PostThinking(Some(OrElse(ev.threadTs, ev.ts)))
    ensures o.threw <==> posted.Err?
    ensures posted.Err? ==> |o.effects| == 1
    ensures posted.Ok? ==>
              o.effects == [PostThinking(Some(OrElse(ev.threadTs, ev.ts)))] + DeletePlaceholder(posted.value)
                           + [Say(ReplyText(answer), Some(ev.ts), None)]
  {
    var post := PostThinking(Some(OrElse(ev.threadTs, ev.ts)));
    match posted
    case Err(_) => Outcome([post], true)
    case Ok(placeholderTs) =>
      Outcome([post] + DeletePlaceholder(placeholderTs) + [Say(ReplyText(answer), Some(ev.ts), None)], false)
  }

  /** The handler with its dependencies: a failed post is its throw;
      otherwise the placeholder is deleted and the reply under the mention is
      the text of the mention's answer. */
  function HandleAppMention(ev: MentionEvent, posted: Result<Option<string>>, deps: Deps): (o: Outcome)
    ensures o.threw <==> posted.Err?
    ensures |o.effects| >= 1 && o.effects[0] == PostThinking(Some(OrElse(ev.threadTs, ev.ts)))
    ensures posted.Ok? ==> o.effects[|o.effects| - 1] == Say(ReplyText(MentionAnswer(ev, deps)), Some(ev.ts), None)
  {
    OnAppMention(ev, posted, MentionAnswer(ev, deps))
  }

  /** The handler replies exactly once, last, under the mention itself, and
      the reply is never empty. */
  lemma RepliesOnceUnderTheMention(ev: MentionEvent, placeholderTs: Option<string>, answer: Result<Option<string>>)
    ensures var es := OnAppMention(ev, Ok(placeholderTs), answer).effects;
      && |SaysIn(es)| == 1
      && es[|es| - 1].Say? && es[|es| - 1].threadTs == Some(ev.ts)
      && es[|es| - 1].text != ""
  {
    var es := OnAppMention(ev, Ok(placeholderTs), answer).effects;
    assert es == [es[0]] + DeletePlaceholder(placeholderTs) + [es[|es| - 1]];
    assert forall i :: 0 <= i < |es| - 1 ==> !es[i].Say?;
    AtMostOneReply(es);
    assert es[|es| - 1] in SaysIn(es);
    assert FailedText != "";
  }

  /** For a mention inside a thread, the placeholder goes to the thread but
      the reply names the mention's own timestamp. */
  lemma PlaceholderAndReplyThreadsDiffer(ev: MentionEvent, placeholderTs: Option<string>, answer: Result<Option<string>>)
    requires Truthy(ev.threadTs) && ev.threadTs.value != ev.ts
    ensures var es := OnAppMention(ev, Ok(placeholderTs), answer).effects;
      es[0].threadTs == ev.threadTs && es[|es| - 1].threadTs == Some(ev.ts) && es[0].threadTs != es[|es| - 1].threadTs
  {
  }

  /** A model answer without content reads exactly like a failure: the
      fallback text has no `**` to convert. */
  lemma MissingContentLooksLikeFailure(answer: Result<Option<string>>)
    requires answer.Err? || !Truthy(answer.value)
    ensures ReplyText(answer) == FailedText
  {
    FallbackUnchanged();
  }

  lemma FallbackUnchanged()
    ensures ParseAIResponse(FailedText) == FailedText
  {
    var s := FailedText;
    assert '*' !in s;
    assert forall i :: !DoubleStarAt(s, i) by {
      forall i | 0 <= i < |s| ensures s[i] != '*' {
        assert s[i] in s;
      }
    }
    UnchangedIffNoDoubleStar(s);
  }

  /** An uninitialised registry makes the agent throw, so the model is never
      asked and the failure text is the reply. */
  lemma UninitialisedRegistryFails(prompt: string, summary: string, deps: Deps)
    requires !deps.registry.initialized
    ensures Answer(prompt, summary, deps).Err?
    ensures ReplyText(Answer(prompt, summary, deps)) == FailedText
  {
    assert AgentMessages(summary, deps).Err?;
  }

  /** With an uninitialised registry and a successful placeholder post, the
      handler deletes the placeholder and replies once, last, with the failure
      text under the mention; the model is never asked. */
  lemma UninitialisedRegistryRepliesFailure(ev: MentionEvent, placeholderTs: Option<string>, deps: Deps)
    requires !deps.registry.initialized
    ensures MentionAnswer(ev, deps).Err?
    ensures var es := HandleAppMention(ev, Ok(placeholderTs), deps).effects;
      && |SaysIn(es)| == 1
      && es[|es| - 1] == Say(FailedText, Some(ev.ts), None)
  {
    UninitialisedRegistryFails(SystemPrompt(deps.host, GetUserName(ev.user, deps.users)), MentionSummary(deps), deps);
    RepliesOnceUnderTheMention(ev, placeholderTs, MentionAnswer(ev, deps));
  }
}
