/** The history builder of the draft bot
    (`slack/utils/getConversationHistory.ts`): the thread's messages ordered
    by timestamp, placeholders and empty messages dropped, each turned into a
    chat message with a role. The bot's messages are passed on trimmed; a
    user's message is quoted with the sender's name, and only mentions of the
    bot are rewritten. Profiles (`users.info`) and the timestamp order are
    parameters. */
module RoleHistory {
  import opened Common
  import opened SlackTypes
  import opened Mentions
  import opened Ordering
  import opened Threads

  datatype Role = UserRole | AssistantRole

  datatype ChatMessage = ChatMessage(role: Role, content: string)

  /** The ids of the messages' senders, in order. */
  function SenderIds(ms: seq<SlackMessage>): (ids: seq<string>)
    ensures forall id :: id in ids <==> exists i :: 0 <= i < |ms| && Truthy(ms[i].user) && ms[i].user.value == id
    decreases |ms|
  {
    if |ms| == 0 then []
    else
      var rest := SenderIds(ms[1..]);
      assert forall i :: 1 <= i < |ms| ==> ms[i] == ms[1..][i - 1];
      (if Truthy(ms[0].user) then [ms[0].user.value] else []) + rest
  }

  /** This draft's `getUserIdsNamesMap`: the senders only, each with the name
      `getUserName` gives (`real_name || name || id`, the id on failure).
      Users who are only mentioned get no entry. */
  function SenderNameMap(ms: seq<SlackMessage>, users: string -> UserInfo): (names: map<string, string>)
    ensures forall id :: id in names <==> exists i :: 0 <= i < |ms| && Truthy(ms[i].user) && ms[i].user.value == id
    ensures forall id :: id in names ==> names[id] == NameFromProfile(id, users(id))
  {
    var ids := Dedup(SenderIds(ms));
    map id | id in ids :: NameFromProfile(id, users(id))
  }

  /** A mention of the bot becomes `@assistant`; any other mention is left as
      it was. */
  function BotMentionRender(bot: Option<string>, id: string): string {
    if Truthy(bot) && id == bot.value then "@assistant" else SelfRender(id)
  }

  /** The text of a user's message with the bot's mentions rewritten. */
  function Rewritten(text: string, bot: Option<string>): string {
    ReplaceMentions(text, AnyId, id => BotMentionRender(bot, id))
  }

  /** The chat message for one kept message. */
  function ChatOf(m: SlackMessage, bot: Option<string>, names: map<string, string>): ChatMessage {
    if IsBot(m) then ChatMessage(AssistantRole, Trim(OrElse(m.text, "")))
    else
      var userName := if Truthy(m.user) then Render(Lookup(names, m.user.value)) else "Unknown User";
      ChatMessage(UserRole, "\"" + userName + "\" said: \"" + Trim(Rewritten(OrElse(m.text, ""), bot)) + "\"")
  }

  function ChatFn(bot: Option<string>, names: map<string, string>): SlackMessage -> ChatMessage {
    (m: SlackMessage) => ChatOf(m, bot, names)
  }

  /** `getConversationHistory` of the draft. The array is sorted in place
      before the bot's id is looked up, so the bot is the sender of the
      earliest bot message by timestamp. No thread, a failed call or an empty
      thread give []. */
  function GetConversationHistory(
    threadTs: Option<string>, replies: Replies, rank: string -> int, users: string -> UserInfo): (h: seq<ChatMessage>)
    ensures !Truthy(threadTs) || ThreadMessages(replies).None? ==> h == []
    ensures Truthy(threadTs) && ThreadMessages(replies).Some? ==>
              var ms := ThreadMessages(replies).value;
              var ks := KeptInOrder(ms, rank);
              var bot := FirstBotUser(Sort(ms, TsKey(rank)));
              && |h| == |ks| <= |ms|
              && forall i :: 0 <= i < |ks| ==> h[i] == ChatOf(ks[i], bot, SenderNameMap(ms, users))
  {
    if !Truthy(threadTs) then []
    else match ThreadMessages(replies)
      case None => []
      case Some(ms) =>
        var bot := FirstBotUser(Sort(ms, TsKey(rank)));
        Map(KeptInOrder(ms, rank), ChatFn(bot, SenderNameMap(ms, users)))
  }

  /** The role is "assistant" exactly for bot messages, whose content is
      their trimmed text; a user's content quotes the sender's profile name
      (the name map never misses a sender) or "Unknown User", then the
      trimmed text with the bot's mentions rewritten. */
  lemma ChatOfSays(m: SlackMessage, ms: seq<SlackMessage>, bot: Option<string>, users: string -> UserInfo)
    requires m in ms
    ensures var c := ChatOf(m, bot, SenderNameMap(ms, users));
      && (c.role == AssistantRole <==> IsBot(m))
      && (IsBot(m) ==> c.content == Trim(OrElse(m.text, "")))
      && (!IsBot(m) ==>
            var name := if Truthy(m.user) then NameFromProfile(m.user.value, users(m.user.value)) else "Unknown User";
            c.content == "\"" + name + "\" said: \"" + Trim(Rewritten(OrElse(m.text, ""), bot)) + "\"")
  {
    if Truthy(m.user) {
      var j :| 0 <= j < |ms| && ms[j] == m;
      assert m.user.value in SenderNameMap(ms, users);
    }
  }

  /** Only mentions of the bot change: a text that does not mention the bot
      (or a thread without a bot message) keeps every mention verbatim. */
  lemma OtherMentionsKept(text: string, bot: Option<string>)
    requires !Truthy(bot) || !(bot.value in MentionIds(text, AnyId))
    ensures Rewritten(text, bot) == text
  {
    UnchangedWhenIdsKept(text, AnyId, id => BotMentionRender(bot, id));
  }

  /** Each mention of the bot reads `@assistant`: the rewrite is the
      replacement that maps exactly the bot's id. */
  lemma BotMentionsBecomeAssistant(text: string, bot: Option<string>)
    requires Truthy(bot)
    ensures forall id :: id in MentionIds(text, AnyId) ==>
              (BotMentionRender(bot, id) == "@assistant" <==> id == bot.value)
  {
    forall id | id in MentionIds(text, AnyId) && id != bot.value
      ensures BotMentionRender(bot, id) != "@assistant"
    {
      assert SelfRender(id)[0] == '<';
    }
  }
}
