/** What the thread readers share: the order they put messages in, the
    messages they keep, and the id-to-name map built from senders and
    mentions. */
module Threads {
  import opened Common
  import opened SlackTypes
  import opened Mentions
  import opened Ordering

  /** `parseFloat(m.ts || '0')`, with the numeric order abstracted to `rank`. */
  function TsKey(rank: string -> int): SlackMessage -> int {
    (m: SlackMessage) => rank(OrElse(m.ts, "0"))
  }

  /** The messages the history keeps: neither a placeholder nor empty. */
  predicate Kept(m: SlackMessage) {
    !IsThinking(m) && Truthy(m.text)
  }

  function KeptFn(): SlackMessage -> bool {
    (m: SlackMessage) => Kept(m)
  }

  /** The kept messages in timestamp order. */
  function KeptInOrder(ms: seq<SlackMessage>, rank: string -> int): (ks: seq<SlackMessage>)
    ensures SortedBy(ks, TsKey(rank))
    ensures forall m :: multiset(ks)[m] == if Kept(m) then multiset(ms)[m] else 0
    ensures forall m :: m in ks <==> m in ms && Kept(m)
    ensures |ks| <= |ms|
  {
    var sorted := Sort(ms, TsKey(rank));
    SortSortsAndPermutes(ms, TsKey(rank));
    assert forall m :: multiset(sorted)[m] == multiset(ms)[m];
    FilterKeepsSorted(sorted, KeptFn(), TsKey(rank));
    assert forall m :: m in sorted <==> m in ms by {
      assert multiset(sorted) == multiset(ms);
      forall m ensures m in sorted <==> m in ms {
        assert m in sorted <==> m in multiset(sorted);
        assert m in ms <==> m in multiset(ms);
      }
    }
    Filter(sorted, KeptFn())
  }

  /** The ids one message contributes to the name map: its sender when
      present, then the users it mentions. */
  function IdsOfMessage(m: SlackMessage): seq<string> {
    (if Truthy(m.user) then [m.user.value] else []) + MentionIds(OrElse(m.text, ""), UserId)
  }

  function IdsOfMessages(ms: seq<SlackMessage>): (ids: seq<string>)
    ensures forall i, id :: 0 <= i < |ms| && id in IdsOfMessage(ms[i]) ==> id in ids
    ensures forall id :: id in ids ==> exists i :: 0 <= i < |ms| && id in IdsOfMessage(ms[i])
    decreases |ms|
  {
    if |ms| == 0 then []
    else
      var rest := IdsOfMessages(ms[1..]);
      assert forall i :: 1 <= i < |ms| ==> ms[i] == ms[1..][i - 1];
      IdsOfMessage(ms[0]) + rest
  }

  /** The name an id receives: `botName` for the sender of the first bot
      message (in the order the platform returned them), the looked-up name
      for everyone else. */
  function NameFor(bot: Option<string>, botName: string, lookup: string -> string, id: string): string {
    if Truthy(bot) && id == bot.value then botName else lookup(id)
  }

  /** `getUserIdsNamesMap` of the service layer and of the single-file bot:
      every sender and every mentioned user id, each with its name. */
  function NameMap(ms: seq<SlackMessage>, botName: string, lookup: string -> string): (names: map<string, string>)
    ensures forall id :: id in names <==> id in IdsOfMessages(ms)
    ensures forall id :: id in names ==> names[id] == NameFor(FirstBotUser(ms), botName, lookup, id)
  {
    var ids := Dedup(IdsOfMessages(ms));
    var bot := FirstBotUser(ms);
    map id | id in ids :: NameFor(bot, botName, lookup, id)
  }

  /** `userNameMap[id]`: `None` stands for `undefined`. */
  function Lookup(names: map<string, string>, id: string): (r: Option<string>)
    ensures r.Some? <==> id in names
    ensures r.Some? ==> r.value == names[id]
  {
    if id in names then Some(names[id]) else None
  }

  /** A message's sender and mentions all have an entry in the map. */
  lemma IdsOfMessageAreMapped(m: SlackMessage, ms: seq<SlackMessage>, botName: string, lookup: string -> string)
    requires m in ms
    ensures forall id :: id in IdsOfMessage(m) ==> id in NameMap(ms, botName, lookup)
  {
    var j :| 0 <= j < |ms| && ms[j] == m;
  }

  /** No id collected is empty: senders are truthy and mention ids are
      non-empty runs. */
  lemma NoEmptyIdCollected(ms: seq<SlackMessage>)
    ensures !("" in IdsOfMessages(ms))
  {
    if "" in IdsOfMessages(ms) {
      var i :| 0 <= i < |ms| && "" in IdsOfMessage(ms[i]);
      MentionIdsAreIds(OrElse(ms[i].text, ""), UserId);
    }
  }
}
