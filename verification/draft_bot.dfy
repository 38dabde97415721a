/** The draft bot's event handling (`slack/index.ts`): its
    `handleBotInteraction` (history, issue keys, tracker context, then the
    model's answer), the `app_mention` listener that strips mentions and
    picks the thread, and the direct-message listener. The platform, the
    tracker and the model are parameters. */
module DraftBot {
  import opened Common
  import opened SlackTypes
  import opened Mentions
  import opened RoleHistory
  import opened IssueKeys
  import opened IssueBatch
  import opened JiraTypes
  import opened AiResponse

  const DisabledText := "AI responses are currently disabled."
  const NoIssuesText := "No Jira issues provided. Right now, I can only evaluate specific Jira issues that have been provided in this thread."
  const NoUserText := "I'm sorry, but I couldn't identify who sent this message. This seems to be a technical issue."

  /** What the handler consults: the thread (`conversations.replies`),
      profiles, the timestamp order, the registered project keys, the
      tracker host and fetch, the `DISABLE_AI` setting, and the model call
      (`getAIResponse`, `Err` when it throws). */
  datatype Env = Env(
    replies: Replies,
    rank: string -> int,
    users: string -> UserInfo,
    projectKeys: seq<string>,
    host: string,
    find: string -> Result<Issue>,
    disableAi: Option<string>,
    llm: (seq<ChatMessage>, BatchReply) -> Result<string>)

  /** The keys `extractJiraIssueKeys` of `features/jira/helpers.ts` finds in
      one message, as that function is written (first digit run of the
      word). */
  function MessageKeys(projectKeys: seq<string>): ChatMessage -> seq<string> {
    (m: ChatMessage) => ExtractIssueKeysAsWritten(m.content, projectKeys)
  }

  /** `history.flatMap(m => extractJiraIssueKeys(m.content))`. */
  function KeysOfHistory(history: seq<ChatMessage>, projectKeys: seq<string>): (ks: seq<string>)
    ensures forall k :: k in ks <==> exists i :: 0 <= i < |history| && k in ExtractIssueKeysAsWritten(history[i].content, projectKeys)
  {
    FlatMap(history, MessageKeys(projectKeys))
  }

  /** `Array.from(new Set(...))` of those keys: every key any message
      mentions, once. */
  function HistoryIssueKeys(history: seq<ChatMessage>, projectKeys: seq<string>): (ks: seq<string>)
    ensures Distinct(ks)
    ensures forall k :: k in ks <==> exists i :: 0 <= i < |history| && k in ExtractIssueKeysAsWritten(history[i].content, projectKeys)
  {
    Dedup(KeysOfHistory(history, projectKeys))
  }

  /** The draft `handleBotInteraction`. The placeholder post and the model
      call are outside any `try`, so their failures are the handler's throw
      (its callers log it); a failing model call leaves the placeholder in
      place and sends no reply. The `DISABLE_AI` check comes after the
      tracker fetch and before the empty-context check. The placeholder is
      deleted without waiting before the answer is posted. */
  function HandleInteraction(threadTs: Option<string>, posted: Result<Option<string>>, env: Env): (o: Outcome)
    ensures |o.effects| >= 1 && o.effects[0] == PostThinking(threadTs)
    ensures posted.Err? ==> o == Outcome([PostThinking(threadTs)], true)
    ensures posted.Ok? && env.disableAi == Some("true") ==>
              o == Outcome([PostThinking(threadTs)] + DeletePlaceholder(posted.value) + [Say(DisabledText, threadTs, None)], false)
  {
    var post := PostThinking(threadTs);
    match posted
    case Err(_) => Outcome([post], true)
    case Ok(placeholderTs) =>
      var history := GetConversationHistory(threadTs, env.replies, env.rank, env.users);
      var context := FetchIssuesForLLM(HistoryIssueKeys(history, env.projectKeys), env.host, env.find);
      var close := [post] + DeletePlaceholder(placeholderTs);
      if env.disableAi == Some("true") then Outcome(close + [Say(DisabledText, threadTs, None)], false)
      else if context.NoIssuesFound? then Outcome(close + [Say(NoIssuesText, threadTs, None)], false)
      else match env.llm(history, context)
        case Err(_) => Outcome([post], true)
        case Ok(answer) => Outcome(close + [Say(answer, threadTs, Some(ParseAIResponse(answer)))], false)
  }

  /** The history names no registered key exactly when no message of it
      does. */
  lemma NoKeysIffNoMessageNamesOne(history: seq<ChatMessage>, projectKeys: seq<string>)
    ensures HistoryIssueKeys(history, projectKeys) == [] <==>
              forall i :: 0 <= i < |history| ==> ExtractIssueKeysAsWritten(history[i].content, projectKeys) == []
  {
    DedupOfEmpty(KeysOfHistory(history, projectKeys));
    NoKeysOfHistory(history, projectKeys);
  }

  lemma NoKeysOfHistory(history: seq<ChatMessage>, projectKeys: seq<string>)
    ensures KeysOfHistory(history, projectKeys) == [] <==>
              forall i :: 0 <= i < |history| ==> ExtractIssueKeysAsWritten(history[i].content, projectKeys) == []
  {
    FlatMapEmpty(history, MessageKeys(projectKeys));
  }

  /** Unless AI is disabled, the "no issues" reply is sent exactly when no
      message of the history names a registered issue key; it is then the
      last effect, after the placeholder is deleted. */
  lemma NoIssuesReplyIffNoKeys(threadTs: Option<string>, placeholderTs: Option<string>, env: Env)
    requires env.disableAi != Some("true")
    ensures var history := GetConversationHistory(threadTs, env.replies, env.rank, env.users);
      var o := HandleInteraction(threadTs, Ok(placeholderTs), env);
      (o.effects[|o.effects| - 1] == Say(NoIssuesText, threadTs, None)) <==>
        forall i :: 0 <= i < |history| ==> ExtractIssueKeysAsWritten(history[i].content, env.projectKeys) == []
  {
    var history := GetConversationHistory(threadTs, env.replies, env.rank, env.users);
    var keys := HistoryIssueKeys(history, env.projectKeys);
    NoIssuesReplyIffNoContext(threadTs, placeholderTs, env);
    assert FetchIssuesForLLM(keys, env.host, env.find).NoIssuesFound? <==> keys == [];
    NoKeysIffNoMessageNamesOne(history, env.projectKeys);
  }

  /** The "no issues" decision does not depend on how matching words are
      normalised: it is taken exactly when no word of the history names a
      registered issue, and the corrected extraction would take it on the
      same histories. */
  lemma NoIssuesReplyIffNoMatchingWord(threadTs: Option<string>, placeholderTs: Option<string>, env: Env)
    requires env.disableAi != Some("true")
    ensures var history := GetConversationHistory(threadTs, env.replies, env.rank, env.users);
      var o := HandleInteraction(threadTs, Ok(placeholderTs), env);
      (o.effects[|o.effects| - 1] == Say(NoIssuesText, threadTs, None)) <==>
        forall i :: 0 <= i < |history| ==> MatchingWords(history[i].content, env.projectKeys) == []
    ensures var history := GetConversationHistory(threadTs, env.replies, env.rank, env.users);
      var o := HandleInteraction(threadTs, Ok(placeholderTs), env);
      (o.effects[|o.effects| - 1] == Say(NoIssuesText, threadTs, None)) <==>
        forall i :: 0 <= i < |history| ==> ExtractIssueKeys(history[i].content, env.projectKeys) == []
  {
    var history := GetConversationHistory(threadTs, env.replies, env.rank, env.users);
    NoIssuesReplyIffNoKeys(threadTs, placeholderTs, env);
    forall i | 0 <= i < |history|
      ensures ExtractIssueKeysAsWritten(history[i].content, env.projectKeys) == [] <==> MatchingWords(history[i].content, env.projectKeys) == []
      ensures ExtractIssueKeys(history[i].content, env.projectKeys) == [] <==> MatchingWords(history[i].content, env.projectKeys) == []
    {
      ExtractionsEmptyTogether(history[i].content, env.projectKeys);
    }
  }

  lemma NoIssuesReplyIffNoContext(threadTs: Option<string>, placeholderTs: Option<string>, env: Env)
    requires env.disableAi != Some("true")
    ensures var history := GetConversationHistory(threadTs, env.replies, env.rank, env.users);
      var context := FetchIssuesForLLM(HistoryIssueKeys(history, env.projectKeys), env.host, env.find);
      var o := HandleInteraction(threadTs, Ok(placeholderTs), env);
      (o.effects[|o.effects| - 1] == Say(NoIssuesText, threadTs, None)) <==> context.NoIssuesFound?
  {
    var history := GetConversationHistory(threadTs, env.replies, env.rank, env.users);
    var context := FetchIssuesForLLM(HistoryIssueKeys(history, env.projectKeys), env.host, env.find);
    if context.IssuesContext? && env.llm(history, context).Ok? {
      var o := HandleInteraction(threadTs, Ok(placeholderTs), env);
      assert o.effects[|o.effects| - 1].blocks.Some?;
    }
  }

  /** When the tracker context is non-empty, a failing model call is the
      handler's throw: the placeholder stays and no reply is sent; otherwise
      the model's answer is the last effect, with its blocks converted. */
  lemma ModelAnswerOrThrow(threadTs: Option<string>, placeholderTs: Option<string>, env: Env)
    requires env.disableAi != Some("true")
    ensures var history := GetConversationHistory(threadTs, env.replies, env.rank, env.users);
      var context := FetchIssuesForLLM(HistoryIssueKeys(history, env.projectKeys), env.host, env.find);
      var o := HandleInteraction(threadTs, Ok(placeholderTs), env);
      && (context.IssuesContext? && env.llm(history, context).Err? ==> o == Outcome([PostThinking(threadTs)], true))
      && (context.IssuesContext? && env.llm(history, context).Ok? ==>
            var answer := env.llm(history, context).value;
            !o.threw && o.effects[|o.effects| - 1] == Say(answer, threadTs, Some(ParseAIResponse(answer))))
  {
  }

  /** `text.replace(/<@[A-Z0-9]+>/g, '').trim()`, the text the
      `app_mention` listener hands over; the handler never reads it. */
  function StripMentions(text: string): string {
    Trim(ReplaceMentions(text, AnyId, (id: string) => ""))
  }

  /** A text without mentions is only trimmed. */
  lemma StripWithoutMentions(text: string)
    requires MentionIds(text, AnyId) == []
    ensures StripMentions(text) == Trim(text)
  {
    ReplaceDependsOnlyOnIds(text, AnyId, (id: string) => "", SelfRender);
    ReplaceWithSelfIsIdentity(text, AnyId);
  }

  /** The replacement is a single pass, so removing one mention can leave
      another behind: `<@<@A1>B>` strips to `<@B>`. */
  lemma StripIsSinglePass()
    ensures ReplaceMentions("<@<@A1>B>", AnyId, (id: string) => "") == "<@B>"
  {
    var s := "<@<@A1>B>";
    assert MentionAtStart(s, AnyId).None? by {
      assert IdRunLength(s, 2) == 0;
    }
    assert s[1..] == "@<@A1>B>";
    assert MentionAtStart(s[1..], AnyId).None?;
    var t := s[1..][1..];
    assert t == "<@A1>B>";
    assert IdRunLength(t, 4) == 0;
    assert IdRunLength(t, 2) == 2;
    assert MentionAtStart(t, AnyId) == Some(2);
    assert t[5..] == "B>";
    assert t[5..][1..] == ">";
    assert t[5..][1..][1..] == "";
  }

  /** The `app_mention` listener: without a sender it apologises in the
      event's own thread field; otherwise it hands the interaction to the
      handler in `thread_ts || ts`. A throw of the handler is logged. */
  function OnAppMention(ev: MentionEvent, posted: Result<Option<string>>, env: Env): (es: seq<Effect>)
    ensures !Truthy(ev.user) ==> es == [Say(NoUserText, ev.threadTs, None)]
    ensures Truthy(ev.user) ==>
              var threadTs := if Truthy(ev.threadTs) then ev.threadTs.value else ev.ts;
              es == HandleInteraction(Some(threadTs), posted, env).effects
  {
    if !Truthy(ev.user) then [Say(NoUserText, ev.threadTs, None)]
    else HandleInteraction(Some(OrElse(ev.threadTs, ev.ts)), posted, env).effects
  }

  /** The direct-message listener: only messages with a non-empty sender in
      a direct-message channel reach the handler, in `thread_ts` when that
      key is present and in the message's own `ts` otherwise. */
  function OnDirectMessage(ev: MessageEvent, posted: Result<Option<string>>, env: Env): (es: seq<Effect>)
    ensures ev.user.None? || !Truthy(ev.user.value) || ev.channelType != Some("im") ==> es == []
    ensures ev.user.Some? && Truthy(ev.user.value) && ev.channelType == Some("im") ==>
              es == HandleInteraction(ThreadOf(ev), posted, env).effects
  {
    if ev.user.None? || !Truthy(ev.user.value) || ev.channelType != Some("im") then []
    else HandleInteraction(ThreadOf(ev), posted, env).effects
  }
}
