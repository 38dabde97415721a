/** The `jira KEY-123` command of the draft bot (`slack/index.ts`): the
    message pattern `^jira\s+([A-Z]+-\d+)` with the `i` flag, the key it
    looks up, the issue card it posts, and the apology when the lookup
    throws. The pattern is a hand-written scanner with a lemma relating it to
    the expression's own reading. The tracker's `findIssue` is a parameter. */
module JiraCommand {
  import opened Common
  import opened SlackTypes
  import opened JiraTypes

  /** The character classes of the pattern: `\s`, `[A-Z]` under the `i`
      flag (both ASCII cases), and `\d`. */
  datatype CharClass = Space | Letter | Digit

  predicate InClass(c: char, k: CharClass) {
    match k
    case Space => IsJsSpace(c)
    case Letter => IsAsciiUpper(c) || IsAsciiLower(c)
    case Digit => IsAsciiDigit(c)
  }

  /** Every character of `text[from..to]` is in class `k`. */
  predicate AllIn(text: string, from: int, to: int, k: CharClass)
    requires 0 <= from <= to <= |text|
  {
    forall i :: from <= i < to ==> InClass(text[i], k)
  }

  /** Length of the longest run of class `k` starting at `p`. */
  function RunLength(s: string, p: nat, k: CharClass): (n: nat)
    requires p <= |s|
    ensures p + n <= |s|
    decreases |s| - p
  {
    if p < |s| && InClass(s[p], k) then 1 + RunLength(s, p + 1, k) else 0
  }

  lemma {:induction false} RunInClass(s: string, p: nat, k: CharClass)
    requires p <= |s|
    ensures AllIn(s, p, p + RunLength(s, p, k), k)
    decreases |s| - p
  {
    if p < |s| && InClass(s[p], k) {
      RunInClass(s, p + 1, k);
    }
  }

  /** The run ends at the end of the text or at a character outside `k`. */
  lemma {:induction false} RunStops(s: string, p: nat, k: CharClass)
    requires p <= |s|
    ensures var n := RunLength(s, p, k); p + n == |s| || !InClass(s[p + n], k)
    decreases |s| - p
  {
    if p < |s| && InClass(s[p], k) {
      RunStops(s, p + 1, k);
    }
  }

  /** `text` starts with `jira` in any ASCII case. */
  predicate KeywordAt(text: string) {
    && |text| >= 4
    && UpperChar(text[0]) == 'J' && UpperChar(text[1]) == 'I'
    && UpperChar(text[2]) == 'R' && UpperChar(text[3]) == 'A'
  }

  /** One way the expression can match at the start of `text`: the keyword,
      `w` white-space characters, `l` letters, a hyphen and `d` digits. */
  predicate Shape(text: string, w: nat, l: nat, d: nat) {
    && 4 + w + l + 1 + d <= |text|
    && w >= 1 && l >= 1 && d >= 1
    && KeywordAt(text)
    && AllIn(text, 4, 4 + w, Space)
    && AllIn(text, 4 + w, 4 + w + l, Letter)
    && text[4 + w + l] == '-'
    && AllIn(text, 4 + w + l + 1, 4 + w + l + 1 + d, Digit)
  }

  /** Where a match lies: the whole match is `text[..end]` and the captured
      key `text[keyStart..end]`. */
  datatype Span = Span(keyStart: nat, end: nat)

  /** `exec` of the command pattern: each part takes its longest run. */
  function MatchCommand(text: string): (m: Option<Span>)
    ensures m.Some? ==> 4 < m.value.keyStart < m.value.end <= |text|
  {
    if !KeywordAt(text) then None
    else
      var w := RunLength(text, 4, Space);
      var l := RunLength(text, 4 + w, Letter);
      var p := 4 + w + l;
      if w == 0 || l == 0 || p >= |text| || text[p] != '-' then None
      else
        var d := RunLength(text, p + 1, Digit);
        if d == 0 then None
        else Some(Span(4 + w, p + 1 + d))
  }

  /** `context.matches[0]`, the whole match. */
  function Whole(text: string, sp: Span): string
    requires sp.end <= |text|
  {
    text[..sp.end]
  }

  /** The captured group: the key as typed. */
  function Captured(text: string, sp: Span): string
    requires sp.keyStart <= sp.end <= |text|
  {
    text[sp.keyStart..sp.end]
  }

  /** Every way of matching uses the scanner's white-space and letter runs,
      and no more digits than its digit run. */
  lemma ShapeIsGreedy(text: string, w: nat, l: nat, d: nat)
    requires Shape(text, w, l, d)
    ensures w == RunLength(text, 4, Space)
    ensures l == RunLength(text, 4 + w, Letter)
    ensures d <= RunLength(text, 4 + w + l + 1, Digit)
  {
    RunInClass(text, 4, Space);
    RunInClass(text, 4 + w, Letter);
    RunInClass(text, 4 + w + l + 1, Digit);
    RunStops(text, 4, Space);
    RunStops(text, 4 + w, Letter);
    RunStops(text, 4 + w + l + 1, Digit);
  }

  /** What the scanner returns, as a shape. */
  lemma ScannerShape(text: string)
    requires MatchCommand(text).Some?
    ensures var w := RunLength(text, 4, Space);
      var l := RunLength(text, 4 + w, Letter);
      var d := RunLength(text, 4 + w + l + 1, Digit);
      && Shape(text, w, l, d)
      && MatchCommand(text).value == Span(4 + w, 4 + w + l + 1 + d)
  {
    var w := RunLength(text, 4, Space);
    var l := RunLength(text, 4 + w, Letter);
    RunInClass(text, 4, Space);
    RunInClass(text, 4 + w, Letter);
    RunInClass(text, 4 + w + l + 1, Digit);
  }

  /** `(w, l, d)` is a match, and every match has the same white space and
      letters and no more digits: the one a greedy reading picks. */
  ghost predicate Longest(text: string, w: nat, l: nat, d: nat) {
    && Shape(text, w, l, d)
    && forall w': nat, l': nat, d': nat :: Shape(text, w', l', d') ==> w' == w && l' == l && d' <= d
  }

  /** Any match means the scanner matches. */
  lemma ShapeMeansMatch(text: string, w: nat, l: nat, d: nat)
    requires Shape(text, w, l, d)
    ensures MatchCommand(text).Some?
  {
    ShapeIsGreedy(text, w, l, d);
  }

  /** The scanner's match is the longest one. */
  lemma ScannerIsLongest(text: string)
    requires MatchCommand(text).Some?
    ensures var w := RunLength(text, 4, Space);
      var l := RunLength(text, 4 + w, Letter);
      var d := RunLength(text, 4 + w + l + 1, Digit);
      Longest(text, w, l, d) && MatchCommand(text).value == Span(4 + w, 4 + w + l + 1 + d)
  {
    ScannerShape(text);
    var w := RunLength(text, 4, Space);
    var l := RunLength(text, 4 + w, Letter);
    var d := RunLength(text, 4 + w + l + 1, Digit);
    forall w': nat, l': nat, d': nat | Shape(text, w', l', d')
      ensures w' == w && l' == l && d' <= d
    {
      ShapeIsGreedy(text, w', l', d');
    }
  }

  /** The scanner matches exactly when the expression can, and then returns
      the longest match, whose captured group starts after the white space. */
  lemma MatchCommandIsRegex(text: string)
    ensures MatchCommand(text).Some? <==> exists w: nat, l: nat, d: nat :: Shape(text, w, l, d)
    ensures MatchCommand(text).Some? ==>
              exists w: nat, l: nat, d: nat ::
                Longest(text, w, l, d) && MatchCommand(text).value == Span(4 + w, 4 + w + l + 1 + d)
  {
    if exists w: nat, l: nat, d: nat :: Shape(text, w, l, d) {
      var w: nat, l: nat, d: nat :| Shape(text, w, l, d);
      ShapeMeansMatch(text, w, l, d);
    }
    if MatchCommand(text).Some? {
      ScannerIsLongest(text);
      var w := RunLength(text, 4, Space);
      var l := RunLength(text, 4 + w, Letter);
      var d := RunLength(text, 4 + w + l + 1, Digit);
      assert Shape(text, w, l, d);
    }
  }

  /** The message V8 gives for reading a property of `undefined`. */
  function UndefinedRead(prop: string): string {
    "Cannot read properties of undefined (reading '" + prop + "')"
  }

  const NotFoundText := "Issue not found or access denied."
  const UnknownErrorText := "Unknown error occurred"

  /** The apology's explanation: a tracker "does not exist" error is
      reworded, any other error keeps its message, and a thrown non-error is
      unknown. */
  function ErrorMessage(t: Thrown): (r: string)
    ensures t.JsError? && Contains(t.message, "does not exist") ==> r == NotFoundText
    ensures t.JsError? && !Contains(t.message, "does not exist") ==> r == t.message
    ensures t.NonErrorThrown? ==> r == UnknownErrorText
  {
    match t
    case JsError(msg) => if Contains(msg, "does not exist") then NotFoundText else msg
    case NonErrorThrown => UnknownErrorText
  }

  /** What `findIssue` does: the issue, or a throw. */
  datatype Fetch = Fetched(issue: Issue) | FetchThrew(error: Thrown)

  /** The card's mrkdwn text. Reading `name` of a missing status, type or
      priority throws; a missing assignee or description has a fallback. */
  function IssueCard(key: string, issue: Issue): (r: Result<string>)
    ensures r.Ok? <==> issue.status.Some? && issue.issueType.Some? && issue.priority.Some?
    ensures r.Err? ==> r.msg == UndefinedRead("name")
    ensures r.Ok? ==> var head := "*" + key + ": " + issue.summary + "*\n\n"; |head| <= |r.value| && r.value[..|head|] == head
  {
    if issue.status.None? || issue.issueType.None? || issue.priority.None? then Err(UndefinedRead("name"))
    else
      var head := "*" + key + ": " + issue.summary + "*\n\n";
      Ok(head
         + "*Status:* " + issue.status.value.name + "\n"
         + "*Type:* " + issue.issueType.value + "\n"
         + "*Priority:* " + issue.priority.value + "\n"
         + "*Assignee:* " + OrElse(DisplayName(issue.assignee), "Unassigned") + "\n\n"
         + "*Description:*\n" + OrElse(FirstParagraphText(issue.description), "No description"))
  }

  function ApologyText(shown: string, t: Thrown): string {
    "Sorry, I couldn't fetch the information for " + shown + ". " + ErrorMessage(t)
  }

  /** The reply once the key is known (`None` when computing it threw):
      the card under "Here's the information for KEY:", or the apology naming
      `shown`. Both go to the channel, not the thread. */
  function CommandReply(key: Result<string>, shown: string, find: string -> Fetch): (e: Effect)
    ensures e.Say? && e.threadTs.None?
    ensures key.Err? ==> e == Say(ApologyText(shown, JsError(key.msg)), None, None)
    ensures key.Ok? && find(key.value).FetchThrew? ==> e == Say(ApologyText(shown, find(key.value).error), None, None)
    ensures key.Ok? && find(key.value).Fetched? ==>
              var card := IssueCard(key.value, find(key.value).issue);
              e == if card.Ok? then Say("Here's the information for " + key.value + ":", None, Some(card.value))
                   else Say(ApologyText(shown, JsError(card.msg)), None, None)
  {
    match key
    case Err(msg) => Say(ApologyText(shown, JsError(msg)), None, None)
    case Ok(k) =>
      match find(k)
      case FetchThrew(t) => Say(ApologyText(shown, t), None, None)
      case Fetched(issue) =>
        match IssueCard(k, issue)
        case Err(msg) => Say(ApologyText(shown, JsError(msg)), None, None)
        case Ok(card) => Say("Here's the information for " + k + ":", None, Some(card))
  }

  // ---------------------------------------------------------------------------
  // The command as written

  /** `match.split(' ')[1].toUpperCase()` on the whole match: the second
      space-separated field, which is missing (so reading `toUpperCase` of
      `undefined` throws) when the match has no ' '. The field holds only
      white space, letters, digits and hyphens, for which `toUpperCase` is
      the ASCII mapping. */
  function KeyAsWritten(whole: string): (r: Result<string>)
    ensures r.Err? <==> ' ' !in whole
    ensures r.Err? ==> r.msg == UndefinedRead("toUpperCase")
  {
    var fields := SplitOnChar(whole, ' ');
    SplitHasSecondField(whole);
    if |fields| < 2 then Err(UndefinedRead("toUpperCase")) else Ok(ToUpperAscii(fields[1]))
  }

  lemma {:induction false} SplitHasSecondField(s: string)
    ensures |SplitOnChar(s, ' ')| >= 2 <==> ' ' in s
    decreases |s|
  {
    if |s| > 0 {
      SplitHasSecondField(s[1..]);
      assert s == [s[0]] + s[1..];
    }
  }

  /** The listener as written: it needs a text the pattern matches and a
      `user` key; the apology names `match[1]`, the second character of the
      whole match. */
  function OnJiraCommandAsWritten(ev: MessageEvent, find: string -> Fetch): (es: seq<Effect>)
    ensures ev.text.None? || MatchCommand(ev.text.value).None? || ev.user.None? ==> es == []
    ensures ev.text.Some? && MatchCommand(ev.text.value).Some? && ev.user.Some? ==>
              var whole := Whole(ev.text.value, MatchCommand(ev.text.value).value);
              |whole| >= 2 && es == [CommandReply(KeyAsWritten(whole), [whole[1]], find)]
  {
    if ev.text.None? || ev.user.None? then []
    else match MatchCommand(ev.text.value)
      case None => []
      case Some(sp) =>
        var whole := Whole(ev.text.value, sp);
        [CommandReply(KeyAsWritten(whole), [whole[1]], find)]
  }

  /** The character `match[1]` shows is the `i` of `jira`, never the key. */
  lemma ApologyShowsLetterI(text: string)
    requires MatchCommand(text).Some?
    ensures var whole := Whole(text, MatchCommand(text).value); |whole| >= 2 && (whole[1] == 'i' || whole[1] == 'I')
  {
  }

  /** `jira ABC-1` matches as a whole, capturing `ABC-1`. */
  lemma SingleSpaceMatch()
    ensures MatchCommand("jira ABC-1") == Some(Span(5, 10))
    ensures Whole("jira ABC-1", Span(5, 10)) == "jira ABC-1"
    ensures Captured("jira ABC-1", Span(5, 10)) == "ABC-1"
  {
    var t := "jira ABC-1";
    assert KeywordAt(t);
    assert RunLength(t, 4, Space) == 1 by {
      assert RunLength(t, 5, Space) == 0;
    }
    assert RunLength(t, 5, Letter) == 3 by {
      assert RunLength(t, 8, Letter) == 0;
    }
    assert RunLength(t, 9, Digit) == 1;
  }

  /** For `jira ABC-1` with a failing lookup, the apology reads "for i". */
  lemma AsWrittenApologyNamesI()
    ensures var ev := MessageEvent(None, Some(Some("U1")), Some("jira ABC-1"), "1.0", None);
      OnJiraCommandAsWritten(ev, (k: string) => FetchThrew(NonErrorThrown))
        == [Say(ApologyText("i", NonErrorThrown), None, None)]
  {
    var t := "jira ABC-1";
    SingleSpaceMatch();
    assert t[4] == ' ';
    assert [t[1]] == "i";
  }

  /** With two spaces after `jira`, the second field is empty: the command
      looks up "" instead of `ABC-1`. */
  lemma DoubleSpaceLooksUpEmptyKey()
    ensures MatchCommand("jira  ABC-1") == Some(Span(6, 11))
    ensures Captured("jira  ABC-1", Span(6, 11)) == "ABC-1"
    ensures KeyAsWritten(Whole("jira  ABC-1", Span(6, 11))) == Ok("")
  {
    DoubleSpaceMatch();
    assert Whole("jira  ABC-1", Span(6, 11)) == "jira  ABC-1";
    SecondFieldOfDoubleSpace();
  }

  lemma DoubleSpaceMatch()
    ensures MatchCommand("jira  ABC-1") == Some(Span(6, 11))
  {
    var t := "jira  ABC-1";
    assert KeywordAt(t);
    assert RunLength(t, 4, Space) == 2 by {
      assert RunLength(t, 6, Space) == 0;
    }
    assert RunLength(t, 6, Letter) == 3 by {
      assert RunLength(t, 9, Letter) == 0;
    }
    assert RunLength(t, 10, Digit) == 1;
  }

  lemma SecondFieldOfDoubleSpace()
    ensures SplitOnChar("jira  ABC-1", ' ')[1] == ""
  {
    NoSpaceInKeyword();
    assert "jira  ABC-1" == "jira" + " " + " ABC-1";
    SplitAtFirstSeparator("jira", ' ', " ABC-1");
    assert " ABC-1" == "" + " " + "ABC-1";
    SplitAtFirstSeparator("", ' ', "ABC-1");
  }

  lemma NoSpaceInKeyword()
    ensures ' ' !in "jira"
  {
    var t := "jira";
    forall i | 0 <= i < |t| ensures t[i] != ' ' {}
  }

  /** With a tab after `jira` the pattern matches, but the match has no ' ',
      so the key cannot be computed and the reply is the apology. */
  lemma TabMatchHasNoKey()
    ensures MatchCommand("jira\tABC-1") == Some(Span(5, 10))
    ensures KeyAsWritten(Whole("jira\tABC-1", Span(5, 10))) == Err(UndefinedRead("toUpperCase"))
  {
    var t := "jira\tABC-1";
    assert KeywordAt(t);
    assert RunLength(t, 4, Space) == 1 by {
      assert RunLength(t, 5, Space) == 0;
    }
    assert RunLength(t, 5, Letter) == 3 by {
      assert RunLength(t, 8, Letter) == 0;
    }
    assert RunLength(t, 9, Digit) == 1;
    assert Whole(t, Span(5, 10)) == t;
    assert t == ['j', 'i', 'r', 'a', '\t', 'A', 'B', 'C', '-', '1'];
  }

  // ---------------------------------------------------------------------------
  // The command as intended

  /** The listener as intended: it looks up the captured key in upper case
      and names the captured key in the apology. */
  function OnJiraCommand(ev: MessageEvent, find: string -> Fetch): (es: seq<Effect>)
    ensures ev.text.None? || MatchCommand(ev.text.value).None? || ev.user.None? ==> es == []
    ensures ev.text.Some? && MatchCommand(ev.text.value).Some? && ev.user.Some? ==>
              var key := Captured(ev.text.value, MatchCommand(ev.text.value).value);
              es == [CommandReply(Ok(ToUpperAscii(key)), key, find)]
  {
    if ev.text.None? || ev.user.None? then []
    else match MatchCommand(ev.text.value)
      case None => []
      case Some(sp) =>
        var key := Captured(ev.text.value, sp);
        [CommandReply(Ok(ToUpperAscii(key)), key, find)]
  }

  /** The looked-up key is always an issue key: upper-case letters, a
      hyphen and digits, exactly as typed up to case. */
  lemma LookedUpKeyIsIssueKey(text: string)
    requires MatchCommand(text).Some?
    ensures var k := ToUpperAscii(Captured(text, MatchCommand(text).value));
      exists l :: 1 <= l && l + 2 <= |k| && (forall i :: 0 <= i < l ==> IsAsciiUpper(k[i]))
                  && k[l] == '-' && (forall i :: l + 1 <= i < |k| ==> IsAsciiDigit(k[i]))
  {
    ScannerShape(text);
    var w := RunLength(text, 4, Space);
    var l := RunLength(text, 4 + w, Letter);
    var key := Captured(text, MatchCommand(text).value);
    var k := ToUpperAscii(key);
    assert forall i :: 0 <= i < |key| ==> key[i] == text[4 + w + i];
    assert k[l] == '-';
  }

  /** When the white space after `jira` ends in its only ' ' (as in
      `jira ABC-1`), the whole match is the text before that ' ', the ' ',
      and the captured key, none of which holds another ' '. */
  lemma OneSpaceSplitsMatch(text: string)
    requires MatchCommand(text).Some?
    requires var w := RunLength(text, 4, Space); text[4 + w - 1] == ' ' && ' ' !in text[4..4 + w - 1]
    ensures var sp := MatchCommand(text).value;
      && ' ' !in text[..sp.keyStart - 1] && ' ' !in Captured(text, sp)
      && Whole(text, sp) == text[..sp.keyStart - 1] + " " + Captured(text, sp)
  {
    ScannerShape(text);
    var w := RunLength(text, 4, Space);
    var sp := MatchCommand(text).value;
    var key := Captured(text, sp);
    var a := text[..4 + w - 1];
    assert ' ' !in a by {
      forall i | 0 <= i < |a| ensures a[i] != ' ' {
        if i >= 4 {
          assert a[i] == text[4..4 + w - 1][i - 4];
        }
      }
    }
    assert ' ' !in key by {
      forall i | 0 <= i < |key| ensures key[i] != ' ' {
        assert key[i] == text[4 + w + i];
      }
    }
  }

  /** In that case the key as written is the captured key in upper case, so
      the two listeners post the same card. */
  lemma AgreesWhenOneSpaceEndsTheGap(ev: MessageEvent, find: string -> Fetch)
    requires ev.text.Some? && MatchCommand(ev.text.value).Some?
    requires var text := ev.text.value; var w := RunLength(text, 4, Space);
      text[4 + w - 1] == ' ' && ' ' !in text[4..4 + w - 1]
    ensures var sp := MatchCommand(ev.text.value).value;
      KeyAsWritten(Whole(ev.text.value, sp)) == Ok(ToUpperAscii(Captured(ev.text.value, sp)))
    ensures var es := OnJiraCommand(ev, find);
      es != [] && es[0].blocks.Some? ==> OnJiraCommandAsWritten(ev, find) == es
  {
    var text := ev.text.value;
    var sp := MatchCommand(text).value;
    OneSpaceSplitsMatch(text);
    SplitAtFirstSeparator(text[..sp.keyStart - 1], ' ', Captured(text, sp));
    SplitWithoutSeparator(Captured(text, sp), ' ');
  }
}
