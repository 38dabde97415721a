/** The service layer's orchestrator (`handleBotInteraction.ts`): post the
    placeholder, run the four stages in order (history, summary, intent
    detection, intent handling), then delete the placeholder and reply with
    the final output, or with a fixed apology when a stage throws. The stages
    are parameters that may fail; `RepositoryStages` wires in the
    repository's own stage functions. Also the bounded message buffer. */
module BotInteraction {
  import opened Common
  import opened SlackTypes
  import opened ServicesHistory
  import opened IntentDetection
  import opened IntentHandler
  import opened JiraTypes

  const OopsText := "Oops! Something went wrong while processing your request. Please try again later."

  /** The four stages, each `Err` when it throws. */
  datatype Stages = Stages(
    history: string -> Result<seq<HistoryItem>>,
    summarize: seq<HistoryItem> -> Result<string>,
    detect: string -> Result<seq<DetectedIntent>>,
    handle: (seq<DetectedIntent>, string) -> Result<string>)

  /** The stages in order, each consuming the previous output; the first
      failure ends the run. */
  function RunStages(threadTs: string, st: Stages): (r: Result<string>)
    ensures r.Ok? <==>
              && st.history(threadTs).Ok?
              && st.summarize(st.history(threadTs).value).Ok?
              && st.detect(st.summarize(st.history(threadTs).value).value).Ok?
              && st.handle(st.detect(st.summarize(st.history(threadTs).value).value).value,
                           st.summarize(st.history(threadTs).value).value).Ok?
    ensures r.Ok? ==>
              var summary := st.summarize(st.history(threadTs).value).value;
              r.value == st.handle(st.detect(summary).value, summary).value
  {
    match st.history(threadTs)
    case Err(e) => Err(e)
    case Ok(history) =>
      match st.summarize(history)
      case Err(e) => Err(e)
      case Ok(summary) =>
        match st.detect(summary)
        case Err(e) => Err(e)
        case Ok(intents) => st.handle(intents, summary)
  }

  /** `handleBotInteraction`. `posted` is the outcome of posting the
      placeholder (its `ts` when it succeeds); that post sits outside the
      `try`, so its failure is the handler's own throw. */
  function HandleBotInteraction(threadTs: Option<string>, posted: Result<Option<string>>, st: Stages): (o: Outcome)
    ensures |o.effects| >= 1 && o.effects[0] == PostThinking(threadTs)
    ensures o.threw <==> posted.Err?
    ensures posted.Err? || !Truthy(threadTs) ==> o.effects == [PostThinking(threadTs)]
    ensures posted.Ok? && Truthy(threadTs) ==>
              var reply := if RunStages(threadTs.value, st).Ok? then RunStages(threadTs.value, st).value else OopsText;
              o.effects == [PostThinking(threadTs)] + DeletePlaceholder(posted.value) + [Say(reply, threadTs, None)]
  {
    var post := PostThinking(threadTs);
    match posted
    case Err(_) => Outcome([post], true)
    case Ok(placeholderTs) =>
      if !Truthy(threadTs) then Outcome([post], false)
      else
        var reply := match RunStages(threadTs.value, st) case Ok(final) => final case Err(_) => OopsText;
        Outcome([post] + DeletePlaceholder(placeholderTs) + [Say(reply, threadTs, None)], false)
  }

  /** Once a stage fails, the later ones are never consulted: two stage sets
      that agree up to a failing history stage give the same run. */
  lemma LaterStagesNotConsulted(threadTs: string, a: Stages, b: Stages)
    requires a.history == b.history && a.history(threadTs).Err?
    ensures RunStages(threadTs, a) == RunStages(threadTs, b)
  {
  }

  /** A run replies exactly once, as its last effect, in the thread, and the
      placeholder is deleted before the reply when it came back with a ts. */
  lemma RepliesOnceInThread(threadTs: Option<string>, posted: Result<Option<string>>, st: Stages)
    requires posted.Ok? && Truthy(threadTs)
    ensures var es := HandleBotInteraction(threadTs, posted, st).effects;
      && |SaysIn(es)| == 1
      && es[|es| - 1].Say? && es[|es| - 1].threadTs == threadTs
      && (Truthy(posted.value) ==> es[1] == DeleteThinking(posted.value.value))
  {
    var es := HandleBotInteraction(threadTs, posted, st).effects;
    assert es == [PostThinking(threadTs)] + DeletePlaceholder(posted.value) + [es[|es| - 1]];
    assert forall i :: 0 <= i < |es| - 1 ==> !es[i].Say?;
    AtMostOneReply(es);
    assert es[|es| - 1] in SaysIn(es);
  }

  /** A trace in which no reply is followed by another holds at most one
      reply. */
  lemma {:induction false} AtMostOneReply(es: seq<Effect>)
    requires forall i, j :: 0 <= i < j < |es| && es[i].Say? ==> !es[j].Say?
    ensures |SaysIn(es)| <= 1
    decreases |es|
  {
    if |es| > 0 {
      AtMostOneReply(es[1..]);
      if es[0].Say? {
        assert forall j :: 0 <= j < |es[1..]| ==> !es[1..][j].Say?;
        NoReplies(es[1..]);
      }
    }
  }

  lemma {:induction false} NoReplies(es: seq<Effect>)
    requires forall j :: 0 <= j < |es| ==> !es[j].Say?
    ensures SaysIn(es) == []
    decreases |es|
  {
    if |es| > 0 {
      assert forall j :: 0 <= j < |es[1..]| ==> !es[1..][j].Say?;
      NoReplies(es[1..]);
    }
  }

  // ---------------------------------------------------------------------------
  // The stages as the repository implements them

  /** The repository's stage functions: the history builder (which answers
      [] instead of throwing), the summary and classifier calls through
      `generateAIResponse` (which answers a fixed text instead of throwing;
      `gen` is its return expression), `detectIntents` and `handleIntents`
      (which catch every failure). The model calls are parameters. */
  function RepositoryStages(
    replies: Replies, rank: string -> int, lookup: string -> string,
    summaryCall: seq<HistoryItem> -> Result<Option<string>>,
    classifyCall: string -> Result<Option<string>>, parse: string -> Parsed,
    getIssue: string -> Result<Issue>, replyCall: (string, seq<IntentResult>) -> Result<Option<string>>,
    gen: (Result<Option<string>>, bool) -> string): Stages
  {
    Stages(
      (ts: string) => Ok(GetConversationHistory(Some(ts), replies, rank, lookup)),
      (h: seq<HistoryItem>) => Ok(gen(summaryCall(h), false)),
      (s: string) => Ok(DetectIntents(Ok(gen(classifyCall(s), true)), parse)),
      (found: seq<DetectedIntent>, s: string) =>
        Ok(HandleIntents(found, s, getIssue, (s2: string, rs: seq<IntentResult>) => Ok(gen(replyCall(s2, rs), false))).reply))
  }

  /** With the repository's own stages nothing throws, so the apology is
      never sent; and since `generateAIResponse` as written never returns the
      model's text, the reply is always one of its fixed texts. */
  lemma RepositoryRepliesAreFixedTexts(
    threadTs: Option<string>, placeholderTs: Option<string>,
    replies: Replies, rank: string -> int, lookup: string -> string,
    summaryCall: seq<HistoryItem> -> Result<Option<string>>,
    classifyCall: string -> Result<Option<string>>, parse: string -> Parsed,
    getIssue: string -> Result<Issue>, replyCall: (string, seq<IntentResult>) -> Result<Option<string>>)
    requires Truthy(threadTs)
    ensures var st := RepositoryStages(replies, rank, lookup, summaryCall, classifyCall, parse, getIssue, replyCall, GenerateAsWritten);
      var es := HandleBotInteraction(threadTs, Ok(placeholderTs), st).effects;
      && RunStages(threadTs.value, st).Ok?
      && es[|es| - 1].Say?
      && es[|es| - 1].text in {EmptyJsonText, NoResponseText, GenerationFailedText}
  {
    var st := RepositoryStages(replies, rank, lookup, summaryCall, classifyCall, parse, getIssue, replyCall, GenerateAsWritten);
    var history := GetConversationHistory(threadTs, replies, rank, lookup);
    var summary := GenerateAsWritten(summaryCall(history), false);
    var intents := DetectIntents(Ok(GenerateAsWritten(classifyCall(summary), true)), parse);
    var compose := (s2: string, rs: seq<IntentResult>) => Ok(GenerateAsWritten(replyCall(s2, rs), false));
    ReplyAsWritten(intents, summary, getIssue, replyCall(summary, HandleIntents(intents, summary, getIssue, compose).results));
  }

  /** With the intended `generateAIResponse`, the text the composing model
      call produces is what the thread receives. */
  lemma IntendedRepliesCarryModelText(
    threadTs: Option<string>, placeholderTs: Option<string>,
    replies: Replies, rank: string -> int, lookup: string -> string,
    summaryCall: seq<HistoryItem> -> Result<Option<string>>,
    classifyCall: string -> Result<Option<string>>, parse: string -> Parsed,
    getIssue: string -> Result<Issue>, replyCall: (string, seq<IntentResult>) -> Result<Option<string>>,
    answer: string)
    requires Truthy(threadTs) && answer != ""
    requires forall s, rs :: replyCall(s, rs) == Ok(Some(answer))
    ensures var st := RepositoryStages(replies, rank, lookup, summaryCall, classifyCall, parse, getIssue, replyCall, Generate);
      var es := HandleBotInteraction(threadTs, Ok(placeholderTs), st).effects;
      es[|es| - 1] == Say(answer, threadTs, None)
  {
    var st := RepositoryStages(replies, rank, lookup, summaryCall, classifyCall, parse, getIssue, replyCall, Generate);
    var history := GetConversationHistory(threadTs, replies, rank, lookup);
    var summary := Generate(summaryCall(history), false);
    var intents := DetectIntents(Ok(Generate(classifyCall(summary), true)), parse);
    var compose := (s2: string, rs: seq<IntentResult>) => Ok(Generate(replyCall(s2, rs), false));
    var results := HandleIntents(intents, summary, getIssue, compose).results;
    assert replyCall(summary, results) == Ok(Some(answer));
    assert RunStages(threadTs.value, st) == Ok(answer);
  }

  // ---------------------------------------------------------------------------
  // The message buffer

  const MaxBufferSize := 10

  datatype BufferEntry = BufferEntry(role: string, content: string)

  /** `updateMessageBuffer`: append, then drop the oldest entry when the
      buffer has grown past the limit. */
  function UpdateMessageBuffer(buffer: seq<BufferEntry>, e: BufferEntry): (r: seq<BufferEntry>)
    ensures |buffer| < MaxBufferSize ==> r == buffer + [e]
    ensures |buffer| >= MaxBufferSize ==> r == buffer[1..] + [e]
    ensures |buffer| <= MaxBufferSize ==> |r| <= MaxBufferSize
    ensures |r| > 0 && r[|r| - 1] == e
  {
    var pushed := buffer + [e];
    if |pushed| > MaxBufferSize then pushed[1..] else pushed
  }

  /** The buffer after a sequence of updates from empty. */
  function Replay(es: seq<BufferEntry>): seq<BufferEntry>
    decreases |es|
  {
    if |es| == 0 then [] else UpdateMessageBuffer(Replay(es[..|es| - 1]), es[|es| - 1])
  }

  /** The buffer holds exactly the last ten entries (all of them while there
      are fewer), oldest first. */
  lemma {:induction false} ReplayKeepsLastEntries(es: seq<BufferEntry>)
    ensures Replay(es) == LastEntries(es)
    decreases |es|
  {
    if |es| > 0 {
      var init := es[..|es| - 1];
      ReplayKeepsLastEntries(init);
      assert es == init + [es[|es| - 1]];
      UpdateKeepsLastEntries(init, es[|es| - 1]);
    }
  }

  /** The last `MaxBufferSize` entries, or all of them while there are
      fewer. */
  function LastEntries(es: seq<BufferEntry>): seq<BufferEntry> {
    if |es| <= MaxBufferSize then es else es[|es| - MaxBufferSize..]
  }

  lemma UpdateKeepsLastEntries(init: seq<BufferEntry>, e: BufferEntry)
    ensures UpdateMessageBuffer(LastEntries(init), e) == LastEntries(init + [e])
  {
    if |init| > MaxBufferSize {
      var t := init[|init| - MaxBufferSize..];
      assert (t + [e])[1..] == (init + [e])[|init| + 1 - MaxBufferSize..];
    } else if |init| == MaxBufferSize {
      assert LastEntries(init + [e]) == (init + [e])[1..];
    }
  }
}
