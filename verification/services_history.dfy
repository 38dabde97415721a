/** The history builder of the service layer
    (`services/slack/utils/getConversationHistory.ts`): the thread's messages
    ordered by timestamp, placeholders and empty messages dropped, each turned
    into a (sender, timestamp, message) item whose `<@U…>` mentions are
    rewritten to `@name`. The name lookup (`getUserName`) and the timestamp
    order (`parseFloat`) are parameters. */
module ServicesHistory {
  import opened Common
  import opened SlackTypes
  import opened Mentions
  import opened Ordering
  import opened Threads

  /** The name the bot's own id maps to. */
  const BotName := "assistant"

  datatype HistoryItem = HistoryItem(sender: string, timestamp: string, message: string)

  /** The rendering of one mention in `formatMessage`, with its check for the
      "assistant" name. */
  function MentionRender(names: map<string, string>, id: string): string {
    if Lookup(names, id) == Some("assistant") then "@assistant"
    else "@" + OrElse(Lookup(names, id), "Unknown")
  }

  /** The "assistant" check is redundant: every mention becomes `@` and the
      mapped name, or `@Unknown` when there is no usable name. */
  lemma MentionRenderIsAtName(names: map<string, string>, id: string)
    ensures id in names && names[id] != "" ==> MentionRender(names, id) == "@" + names[id]
    ensures !(id in names && names[id] != "") ==> MentionRender(names, id) == "@Unknown"
  {
  }

  /** `formatMessage`: each `<@U…>` mention becomes `@name`. */
  function FormatMessage(s: string, names: map<string, string>): string {
    ReplaceMentions(s, UserId, id => MentionRender(names, id))
  }

  /** The item for one kept message. `Lookup` never misses for a sender in
      the history (see `ItemIsNamed`). */
  function ItemOf(m: SlackMessage, names: map<string, string>): HistoryItem {
    HistoryItem(
      if Truthy(m.user) then Render(Lookup(names, m.user.value)) else "Unknown User",
      OrElse(m.ts, ""),
      FormatMessage(Trim(OrElse(m.text, "")), names))
  }

  function ItemFn(names: map<string, string>): SlackMessage -> HistoryItem {
    (m: SlackMessage) => ItemOf(m, names)
  }

  /** `getConversationHistory`: no thread, a failed call, or an empty thread
      give []; otherwise one item per kept message, in timestamp order. */
  function GetConversationHistory(
    threadTs: Option<string>, replies: Replies, rank: string -> int, lookup: string -> string): (h: seq<HistoryItem>)
    ensures !Truthy(threadTs) || ThreadMessages(replies).None? ==> h == []
    ensures Truthy(threadTs) && ThreadMessages(replies).Some? ==>
              var ms := ThreadMessages(replies).value;
              var ks := KeptInOrder(ms, rank);
              && |h| == |ks| <= |ms|
              && forall i :: 0 <= i < |ks| ==> h[i] == ItemOf(ks[i], NameMap(ms, BotName, lookup))
  {
    if !Truthy(threadTs) then []
    else match ThreadMessages(replies)
      case None => []
      case Some(ms) => Map(KeptInOrder(ms, rank), ItemFn(NameMap(ms, BotName, lookup)))
  }

  /** A mention as the history should show it: `@` and the user's name, or
      `@Unknown` when the name is empty. */
  function AtName(bot: Option<string>, lookup: string -> string, id: string): string {
    if NameFor(bot, BotName, lookup, id) != "" then "@" + NameFor(bot, BotName, lookup, id) else "@Unknown"
  }

  /** What the item of a kept message says, in terms of the message alone:
      the sender's name ("assistant" for the bot, "Unknown User" without a
      sender), the timestamp or "", and the trimmed text whose mentions read
      `@name`. The map never misses: it covers every sender and every user
      mentioned in the thread. */
  lemma ItemIsNamed(m: SlackMessage, ms: seq<SlackMessage>, lookup: string -> string)
    requires m in ms && Kept(m)
    ensures
      var bot := FirstBotUser(ms);
      var h := ItemOf(m, NameMap(ms, BotName, lookup));
      && h.sender == (if Truthy(m.user) then NameFor(bot, BotName, lookup, m.user.value) else "Unknown User")
      && h.timestamp == OrElse(m.ts, "")
      && h.message == ReplaceMentions(Trim(m.text.value), UserId, id => AtName(bot, lookup, id))
  {
    var names := NameMap(ms, BotName, lookup);
    if Truthy(m.user) {
      assert m.user.value in IdsOfMessage(m);
      IdsOfMessageAreMapped(m, ms, BotName, lookup);
    }
    MessageIsNamed(m, ms, lookup);
  }

  lemma MessageIsNamed(m: SlackMessage, ms: seq<SlackMessage>, lookup: string -> string)
    requires m in ms && Kept(m)
    ensures FormatMessage(Trim(m.text.value), NameMap(ms, BotName, lookup))
            == ReplaceMentions(Trim(m.text.value), UserId, id => AtName(FirstBotUser(ms), lookup, id))
  {
    var t := m.text.value;
    IdsOfMessageAreMapped(m, ms, BotName, lookup);
    assert forall id :: id in MentionIds(t, UserId) ==> id in IdsOfMessage(m);
    MentionIdsOfTrim(t, UserId);
    FormattedMentionsAreNamed(Trim(t), NameMap(ms, BotName, lookup), FirstBotUser(ms), lookup);
  }

  /** With every mentioned id in the map under its name, `formatMessage`
      writes each mention as `@name`. */
  lemma FormattedMentionsAreNamed(t: string, names: map<string, string>, bot: Option<string>, lookup: string -> string)
    requires forall id :: id in MentionIds(t, UserId) ==> id in names && names[id] == NameFor(bot, BotName, lookup, id)
    ensures FormatMessage(t, names) == ReplaceMentions(t, UserId, id => AtName(bot, lookup, id))
  {
    forall id | id in MentionIds(t, UserId)
      ensures MentionRender(names, id) == AtName(bot, lookup, id)
    {
      MentionRenderIsAtName(names, id);
    }
    ReplaceDependsOnlyOnIds(t, UserId, id => MentionRender(names, id), id => AtName(bot, lookup, id));
  }
}
