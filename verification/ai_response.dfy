/** The response text helpers: assembling the model's input
    (`prepareAIInput`) and tidying its answer for the chat (`parseAIResponse`,
    a global regex replacement of `**` by `*`). */
module AiResponse {

  /** `[SYSTEM_MESSAGE, jiraContext, ...userMessages]`; the system message is
      a fixed prompt, passed in since its text is immaterial here. */
  function PrepareAIInput<M>(system: M, context: M, userMessages: seq<M>): (r: seq<M>)
    ensures |r| == |userMessages| + 2
    ensures r[0] == system && r[1] == context
    ensures r[2..] == userMessages
  {
    [system, context] + userMessages
  }

  /** A `**` starting at position `i`. */
  predicate DoubleStarAt(s: string, i: int) {
    0 <= i && i + 1 < |s| && s[i] == '*' && s[i + 1] == '*'
  }

  /** A `***` starting at position `i`. */
  predicate TripleStarAt(s: string, i: int) {
    DoubleStarAt(s, i) && i + 2 < |s| && s[i + 2] == '*'
  }

  /** The number of `**` a global left-to-right, non-overlapping scan finds. */
  function Replacements(s: string): nat
    decreases |s|
  {
    if |s| < 2 then 0
    else if s[0] == '*' && s[1] == '*' then 1 + Replacements(s[2..])
    else Replacements(s[1..])
  }

  /** The text without its asterisks. */
  function NonStars(s: string): string
    decreases |s|
  {
    if |s| == 0 then "" else (if s[0] == '*' then "" else [s[0]]) + NonStars(s[1..])
  }

  /** `parseAIResponse`: each `**` found scanning left to right, without
      overlap, becomes a single `*`. */
  function ParseAIResponse(s: string): (r: string)
    ensures |r| == |s| - Replacements(s)
    ensures NonStars(r) == NonStars(s)
    ensures |s| > 0 ==> |r| > 0
    decreases |s|
  {
    if |s| < 2 then s
    else if s[0] == '*' && s[1] == '*' then "*" + ParseAIResponse(s[2..])
    else [s[0]] + ParseAIResponse(s[1..])
  }

  /** Text with no `**` comes back unchanged, and only such text does. */
  lemma {:induction false} UnchangedIffNoDoubleStar(s: string)
    ensures ParseAIResponse(s) == s <==> forall i :: !DoubleStarAt(s, i)
    decreases |s|
  {
    if |s| >= 2 {
      if s[0] == '*' && s[1] == '*' {
        assert DoubleStarAt(s, 0);
        assert |ParseAIResponse(s)| < |s|;
      } else {
        UnchangedIffNoDoubleStar(s[1..]);
        forall i | DoubleStarAt(s[1..], i) ensures DoubleStarAt(s, i + 1) {}
        forall i | DoubleStarAt(s, i) ensures DoubleStarAt(s[1..], i - 1) {
          assert i != 0;
        }
      }
    }
  }

  /** The first character survives the rewrite: an answer starts with `*`
      iff the text does. */
  lemma {:induction false} FirstCharKept(s: string)
    requires |s| > 0
    ensures ParseAIResponse(s)[0] == s[0]
  {
  }

  /** Text without `***` has no `**` left afterwards; a run of three or more
      asterisks is where the rewrite falls short. */
  lemma {:induction false} NoTripleLeavesNoDouble(s: string)
    requires forall i :: !TripleStarAt(s, i)
    ensures forall i :: !DoubleStarAt(ParseAIResponse(s), i)
    decreases |s|
  {
    if |s| >= 2 {
      var r := ParseAIResponse(s);
      if s[0] == '*' && s[1] == '*' {
        var t := s[2..];
        forall i | TripleStarAt(t, i) ensures TripleStarAt(s, i + 2) {}
        NoTripleLeavesNoDouble(t);
        var rt := ParseAIResponse(t);
        assert r == "*" + rt;
        if |t| > 0 {
          assert !TripleStarAt(s, 0);
          FirstCharKept(t);
          assert rt[0] != '*';
        }
        forall i ensures !DoubleStarAt(r, i) {
          if i > 0 && DoubleStarAt(r, i) {
            assert DoubleStarAt(rt, i - 1);
          }
        }
      } else {
        var t := s[1..];
        forall i | TripleStarAt(t, i) ensures TripleStarAt(s, i + 1) {}
        NoTripleLeavesNoDouble(t);
        var rt := ParseAIResponse(t);
        assert r == [s[0]] + rt;
        if s[0] == '*' {
          FirstCharKept(t);
        }
        forall i ensures !DoubleStarAt(r, i) {
          if i > 0 && DoubleStarAt(r, i) {
            assert DoubleStarAt(rt, i - 1);
          }
        }
      }
    }
  }

  /** The rewrite is not idempotent: `***` becomes `**`, which a second pass
      turns into `*`. */
  lemma NotIdempotent()
    ensures ParseAIResponse("***") == "**"
    ensures ParseAIResponse(ParseAIResponse("***")) == "*"
  {
    assert "***"[2..] == "*";
    assert "**"[2..] == "";
  }

  /** Bold markers of the usual form are halved: `**bold**` becomes `*bold*`. */
  lemma BoldBecomesSlackBold()
    ensures ParseAIResponse("**bold**") == "*bold*"
  {
    var s := "**bold**";
    assert s[2..] == "bold**";
    assert s[2..][1..] == "old**";
    assert s[2..][1..][1..] == "ld**";
    assert s[2..][1..][1..][1..] == "d**";
    assert s[2..][1..][1..][1..][1..] == "**";
    assert "**"[2..] == "";
  }
}
