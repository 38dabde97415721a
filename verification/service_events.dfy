/** The service layer's two listeners (`onMessage.ts`, `onAppMention.ts`),
    both handing the interaction to `handleBotInteraction`. The stages and the
    placeholder post are parameters, as there. */
module ServiceEvents {
  import opened Common
  import opened SlackTypes
  import opened BotInteraction
  import DraftBot

  /** `onMessage`: only direct messages that carry a `user` key reach the
      handler (the key's presence decides, not its value), in `thread_ts`
      when that key is present and in the message's own `ts` otherwise. A
      throw of the handler is caught and logged, so it leaves no effect. */
  function OnMessage(ev: MessageEvent, posted: Result<Option<string>>, st: Stages): (es: seq<Effect>)
    ensures ev.channelType != Some("im") || ev.user.None? ==> es == []
    ensures ev.channelType == Some("im") && ev.user.Some? ==>
              es == HandleBotInteraction(ThreadOf(ev), posted, st).effects
    ensures ev.channelType == Some("im") && ev.user.Some? ==>
              |es| >= 1 && es[0] == PostThinking(ThreadOf(ev))
    ensures ev.channelType == Some("im") && ev.user.Some? && ev.threadTs == Some(None) ==>
              es == [PostThinking(None)]
  {
    if ev.channelType != Some("im") || ev.user.None? then []
    else HandleBotInteraction(ThreadOf(ev), posted, st).effects
  }

  /** `onAppMention`: the handler gets the event's `thread_ts` as it is, so a
      mention outside a thread leaves the placeholder at the channel's top
      level and is never answered. The handler is not awaited; its throw is
      an unhandled rejection and leaves no further effect. */
  function OnAppMention(ev: MentionEvent, posted: Result<Option<string>>, st: Stages): (es: seq<Effect>)
    ensures |es| >= 1 && es[0] == PostThinking(ev.threadTs)
    ensures !Truthy(ev.threadTs) ==> es == [PostThinking(ev.threadTs)]
    ensures posted.Ok? && Truthy(ev.threadTs) ==> es[|es| - 1].Say? && es[|es| - 1].threadTs == ev.threadTs
  {
    HandleBotInteraction(ev.threadTs, posted, st).effects
  }

  /** A direct message outside any thread, with a `user` key and a non-empty
      `ts`, is answered exactly once, last, in the thread the message starts. */
  lemma DirectMessageRepliesOnce(ev: MessageEvent, placeholderTs: Option<string>, st: Stages)
    requires ev.channelType == Some("im") && ev.user.Some? && ev.threadTs.None? && ev.ts != ""
    ensures var es := OnMessage(ev, Ok(placeholderTs), st);
      && |SaysIn(es)| == 1
      && es[|es| - 1].Say? && es[|es| - 1].threadTs == Some(ev.ts)
  {
    RepliesOnceInThread(Some(ev.ts), Ok(placeholderTs), st);
  }

  /** A direct message with a `user` key whose thread (`thread_ts` when
      present, else its own `ts`) is non-empty is answered exactly once,
      last, in that thread; a failed placeholder post answers nothing. */
  lemma DirectMessageAnsweredInItsThread(ev: MessageEvent, posted: Result<Option<string>>, st: Stages)
    requires ev.channelType == Some("im") && ev.user.Some? && Truthy(ThreadOf(ev))
    ensures var es := OnMessage(ev, posted, st);
      && (posted.Ok? ==> |SaysIn(es)| == 1 && es[|es| - 1].Say? && es[|es| - 1].threadTs == ThreadOf(ev))
      && (posted.Err? ==> es == [PostThinking(ThreadOf(ev))])
  {
    if posted.Ok? {
      RepliesOnceInThread(ThreadOf(ev), posted, st);
    }
  }

  /** The two direct-message listeners disagree on a `user` key that is
      present but empty: the draft listener ignores the message, the service
      listener posts a placeholder for it. */
  lemma EmptySenderSplitsTheListeners(ev: MessageEvent, posted: Result<Option<string>>, st: Stages, env: DraftBot.Env)
    requires ev.channelType == Some("im") && ev.user == Some(Some(""))
    ensures DraftBot.OnDirectMessage(ev, posted, env) == []
    ensures OnMessage(ev, posted, st) != []
  {
  }
}
