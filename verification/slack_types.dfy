/** The chat platform's values the bot reads and the effects it has: thread
    messages as the replies call returns them, user profiles, and the three
    kinds of visible action (posting the placeholder, deleting it, replying). */
module SlackTypes {
  import opened Common

  /** One message of a thread; every field may be missing. `botId` is set on
      messages a bot posted. */
  datatype SlackMessage = SlackMessage(
    user: Option<string>,
    botId: Option<string>,
    ts: Option<string>,
    text: Option<string>)

  /** The outcome of `conversations.replies`: a throw, or an answer whose
      `messages` may be absent. */
  datatype Replies = RepliesFailed | Replies(messages: Option<seq<SlackMessage>>)

  /** The placeholder texts (`THINKING_TEXT`, `THINKING_TEXT_RAW`). */
  const ThinkingText := "\U{1F914} \U{1F4AD} \U{2728}"
  const ThinkingTextRaw := ":thinking_face: :thought_balloon: :sparkles:"

  /** A message whose text is exactly one of the placeholder texts. */
  predicate IsThinking(m: SlackMessage) {
    m.text == Some(ThinkingText) || m.text == Some(ThinkingTextRaw)
  }

  predicate IsBot(m: SlackMessage) {
    Truthy(m.botId)
  }

  /** The messages of a successful, non-empty answer, if any. */
  function ThreadMessages(r: Replies): (ms: Option<seq<SlackMessage>>)
    ensures ms.Some? <==> r.Replies? && r.messages.Some? && |r.messages.value| > 0
    ensures ms.Some? ==> ms.value == r.messages.value
  {
    if r.Replies? && r.messages.Some? && |r.messages.value| > 0 then r.messages else None
  }

  /** `messages.find(m => m.bot_id)?.user`: the sender of the first bot
      message, if there is one and it names a sender. */
  function FirstBotUser(ms: seq<SlackMessage>): (u: Option<string>)
    ensures u.Some? ==> exists i :: 0 <= i < |ms| && IsBot(ms[i]) && ms[i].user == u
    ensures (forall i :: 0 <= i < |ms| ==> !IsBot(ms[i])) ==> u.None?
    ensures forall i :: 0 <= i < |ms| && IsBot(ms[i]) && (forall j :: 0 <= j < i ==> !IsBot(ms[j])) ==> u == ms[i].user
    decreases |ms|
  {
    if |ms| == 0 then None
    else if IsBot(ms[0]) then ms[0].user
    else
      var u := FirstBotUser(ms[1..]);
      assert u.Some? ==> exists i :: 1 <= i < |ms| && IsBot(ms[i]) && ms[i].user == u by {
        if u.Some? {
          var j :| 0 <= j < |ms[1..]| && IsBot(ms[1..][j]) && ms[1..][j].user == u;
          assert IsBot(ms[j + 1]) && ms[j + 1].user == u;
        }
      }
      u
  }

  /** A user profile as `users.info` returns it, or a failed lookup. */
  datatype UserInfo = InfoFailed | Info(realName: Option<string>, name: Option<string>)

  /** `real_name || name || userId`, and the id itself when the lookup
      throws. */
  function NameFromProfile(userId: string, info: UserInfo): (n: string)
    ensures info.InfoFailed? ==> n == userId
    ensures info.Info? && Truthy(info.realName) ==> n == info.realName.value
    ensures info.Info? && !Truthy(info.realName) && Truthy(info.name) ==> n == info.name.value
    ensures info.Info? && !Truthy(info.realName) && !Truthy(info.name) ==> n == userId
  {
    match info
    case InfoFailed => userId
    case Info(realName, name) => OrElse(realName, OrElse(name, userId))
  }

  /** `getUserName` of the tool-agent bot: "Unknown User" for a missing or
      empty id, otherwise the profile's name. The result is never empty when
      the id is not. */
  function GetUserName(userId: Option<string>, users: string -> UserInfo): (n: string)
    ensures !Truthy(userId) ==> n == "Unknown User"
    ensures Truthy(userId) ==> n == NameFromProfile(userId.value, users(userId.value)) && n != ""
  {
    if !Truthy(userId) then "Unknown User" else NameFromProfile(userId.value, users(userId.value))
  }

  /** A `message` event. `user` and `threadTs` distinguish a key that is
      absent (`None`) from one present with an undefined value
      (`Some(None)`), since the handlers test them with `in`. */
  datatype MessageEvent = MessageEvent(
    channelType: Option<string>,
    user: Option<Option<string>>,
    text: Option<string>,
    ts: string,
    threadTs: Option<Option<string>>)

  /** An `app_mention` event. */
  datatype MentionEvent = MentionEvent(user: Option<string>, text: string, ts: string, threadTs: Option<string>)

  /** `'thread_ts' in message ? message.thread_ts : message.ts`. */
  function ThreadOf(ev: MessageEvent): (t: Option<string>)
    ensures ev.threadTs.Some? ==> t == ev.threadTs.value
    ensures ev.threadTs.None? ==> t == Some(ev.ts)
  {
    if ev.threadTs.Some? then ev.threadTs.value else Some(ev.ts)
  }

  /** The visible actions of a handler: posting the placeholder in a thread,
      deleting the placeholder (by its ts), and posting a reply with an
      optional block text. */
  datatype Effect =
    | PostThinking(threadTs: Option<string>)
    | DeleteThinking(ts: string)
    | Say(text: string, threadTs: Option<string>, blocks: Option<string>)

  /** What a handler did: its effects in order, and whether it ended by
      throwing. */
  datatype Outcome = Outcome(effects: seq<Effect>, threw: bool)

  /** `deleteThinkingMessage`: a deletion only when the placeholder came back
      with a ts. */
  function DeletePlaceholder(placeholderTs: Option<string>): (es: seq<Effect>)
    ensures Truthy(placeholderTs) ==> es == [DeleteThinking(placeholderTs.value)]
    ensures !Truthy(placeholderTs) ==> es == []
  {
    if Truthy(placeholderTs) then [DeleteThinking(placeholderTs.value)] else []
  }

  /** The replies in a trace. */
  function SaysIn(es: seq<Effect>): (rs: seq<Effect>)
    ensures forall e :: e in rs <==> e in es && e.Say?
  {
    Filter(es, (e: Effect) => e.Say?)
  }
}
