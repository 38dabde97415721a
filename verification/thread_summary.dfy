/** `getSummarizedThreadMessages` of the single-file bot (`slack.ts`): the
    thread rendered as one line per message, `<time> - <name> said: "<text>"`,
    in the order the platform returned them. Profiles and the ISO rendering
    of a timestamp are parameters; `None` from the rendering stands for the
    `RangeError` that `toISOString` throws on an invalid date. */
module ThreadSummary {
  import opened Common
  import opened SlackTypes
  import opened Mentions
  import opened Threads

  const NoMessagesText := "No messages found in thread."
  const ErrorText := "Error retrieving thread messages."

  /** The name the bot's own id maps to, and the name shown for its messages. */
  const BotName := "@assistant"

  /** `getUserName(userId, client)` as the name map calls it. */
  function ProfileLookup(users: string -> UserInfo): string -> string {
    (id: string) => GetUserName(Some(id), users)
  }

  /** Only the placeholders are dropped; empty messages stay. */
  predicate NotThinking(m: SlackMessage) {
    !IsThinking(m)
  }

  function NotThinkingFn(): SlackMessage -> bool {
    (m: SlackMessage) => NotThinking(m)
  }

  /** A mention is replaced by the mapped name, or by the bare id when there
      is no usable name; no `@` is added. */
  function SummaryMention(names: map<string, string>, id: string): string {
    OrElse(Lookup(names, id), id)
  }

  /** The line of one message, or `None` when its timestamp cannot be
      rendered. A non-bot message without a sender looks up `""`, which the
      map never holds, so its name renders as "undefined". */
  function SummaryLine(m: SlackMessage, names: map<string, string>, iso: Option<string> -> Option<string>): Option<string> {
    match iso(m.ts)
    case None => None
    case Some(time) =>
      var userName := if IsBot(m) then BotName else Render(Lookup(names, OrElse(m.user, "")));
      var text := ReplaceMentions(OrElse(m.text, ""), AnyId, id => SummaryMention(names, id));
      Some(time + " - " + userName + " said: \"" + text + "\"")
  }

  /** The lines of all messages; one failed rendering fails them all (the
      throw leaves the `map`). */
  function SummaryLines(ms: seq<SlackMessage>, names: map<string, string>, iso: Option<string> -> Option<string>): (r: Option<seq<string>>)
    ensures r.Some? <==> forall i :: 0 <= i < |ms| ==> SummaryLine(ms[i], names, iso).Some?
    ensures r.Some? ==> |r.value| == |ms| && forall i :: 0 <= i < |ms| ==> r.value[i] == SummaryLine(ms[i], names, iso).value
    decreases |ms|
  {
    if |ms| == 0 then Some([])
    else
      match SummaryLine(ms[0], names, iso)
      case None => None
      case Some(line) =>
        var rest := SummaryLines(ms[1..], names, iso);
        assert forall i :: 1 <= i < |ms| ==> ms[i] == ms[1..][i - 1];
        if rest.None? then None else Some([line] + rest.value)
  }

  /** `getSummarizedThreadMessages`. */
  function GetSummarizedThreadMessages(
    replies: Replies, users: string -> UserInfo, iso: Option<string> -> Option<string>): (r: string)
    ensures replies.RepliesFailed? ==> r == ErrorText
    ensures replies.Replies? && ThreadMessages(replies).None? ==> r == NoMessagesText
    ensures ThreadMessages(replies).Some? ==>
              var ms := ThreadMessages(replies).value;
              var lines := SummaryLines(Filter(ms, NotThinkingFn()), NameMap(ms, BotName, ProfileLookup(users)), iso);
              r == if lines.Some? then Join(lines.value, "\n") else ErrorText
  {
    if replies.RepliesFailed? then ErrorText
    else match ThreadMessages(replies)
      case None => NoMessagesText
      case Some(ms) =>
        var names := NameMap(ms, BotName, ProfileLookup(users));
        match SummaryLines(Filter(ms, NotThinkingFn()), names, iso)
        case None => ErrorText
        case Some(lines) => Join(lines, "\n")
  }

  /** A mention in the summary, in terms of the thread alone: a user-id
      mention always resolves to the user's name (or the id when the name is
      empty), since the map holds every user-id mention of the thread; an id
      that neither sent nor was mentioned as a user id stays bare. */
  lemma SummaryMentionsResolve(m: SlackMessage, ms: seq<SlackMessage>, users: string -> UserInfo, id: string)
    requires m in ms && id in MentionIds(OrElse(m.text, ""), AnyId)
    ensures var names := NameMap(ms, BotName, ProfileLookup(users));
      var name := NameFor(FirstBotUser(ms), BotName, ProfileLookup(users), id);
      && (IsUserIdText(id) ==> SummaryMention(names, id) == (if name != "" then name else id))
      && (!(id in IdsOfMessages(ms)) ==> SummaryMention(names, id) == id)
  {
    if IsUserIdText(id) {
      UserIdMentionsSeenByBoth(OrElse(m.text, ""), id);
      assert id in IdsOfMessage(m);
      IdsOfMessageAreMapped(m, ms, BotName, ProfileLookup(users));
    }
  }

  /** The name on a line: "@assistant" for any bot message, otherwise the
      sender's profile name, which the map always holds, or "undefined" for
      a message without a sender. */
  lemma SummaryNameOf(m: SlackMessage, ms: seq<SlackMessage>, users: string -> UserInfo)
    requires m in ms
    ensures var names := NameMap(ms, BotName, ProfileLookup(users));
      var shown := if IsBot(m) then BotName else Render(Lookup(names, OrElse(m.user, "")));
      shown == if IsBot(m) then BotName
               else if Truthy(m.user) then NameFor(FirstBotUser(ms), BotName, ProfileLookup(users), m.user.value)
               else "undefined"
  {
    if !IsBot(m) && Truthy(m.user) {
      assert m.user.value in IdsOfMessage(m);
      IdsOfMessageAreMapped(m, ms, BotName, ProfileLookup(users));
    }
    if !Truthy(m.user) {
      NoEmptyIdCollected(ms);
    }
  }
}
