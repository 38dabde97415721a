/** User mentions in message text, `<@ID>`, as the two global regular
    expressions of the bot find them: `<@([A-Z0-9]+)>` and the user-id-only
    `<@(U[A-Z0-9]+)>`. A left-to-right scanner stands in for the regex
    engine; its agreement with the pattern is proved below. */
module Mentions {
  import opened Common

  predicate IsIdChar(c: char) {
    IsAsciiUpper(c) || IsAsciiDigit(c)
  }

  predicate AllIdChars(s: string) {
    forall k :: 0 <= k < |s| ==> IsIdChar(s[k])
  }

  predicate IdCharsBetween(s: string, a: int, b: int) {
    forall k :: a <= k < b && 0 <= k < |s| ==> IsIdChar(s[k])
  }

  /** The two patterns: any id, or an id starting with `U`. */
  datatype Pattern = AnyId | UserId

  /** The length of the run of id characters starting at `p`. */
  function IdRunLength(s: string, p: nat): (n: nat)
    requires p <= |s|
    ensures p + n <= |s|
    decreases |s| - p
  {
    if p < |s| && IsIdChar(s[p]) then 1 + IdRunLength(s, p + 1) else 0
  }

  /** The run is made of id characters and is maximal. */
  lemma {:induction false} IdRunIsMaximal(s: string, p: nat)
    requires p <= |s|
    ensures IdCharsBetween(s, p, p + IdRunLength(s, p))
    ensures p + IdRunLength(s, p) < |s| ==> !IsIdChar(s[p + IdRunLength(s, p)])
    decreases |s| - p
  {
    if p < |s| && IsIdChar(s[p]) {
      IdRunIsMaximal(s, p + 1);
    }
  }

  /** What the pattern itself demands of a mention at the start of `s` with
      an id of length `n`. */
  ghost predicate RegexMentionAtStart(s: string, pat: Pattern, n: nat) {
    && 3 + n <= |s| && s[0] == '<' && s[1] == '@' && s[2 + n] == '>'
    && n >= 1 && IdCharsBetween(s, 2, 2 + n)
    && (pat.UserId? ==> s[2] == 'U' && n >= 2)
  }

  /** The id length of the mention the scanner finds at the start of `s`. */
  function MentionAtStart(s: string, pat: Pattern): (n: Option<nat>)
    ensures n.Some? ==> 3 + n.value <= |s| && s[0] == '<' && s[1] == '@' && s[2 + n.value] == '>'
  {
    if |s| >= 2 && s[0] == '<' && s[1] == '@' then
      var n := IdRunLength(s, 2);
      if n >= 1 && 2 + n < |s| && s[2 + n] == '>' && (pat.AnyId? || (s[2] == 'U' && n >= 2)) then
        Some(n)
      else None
    else None
  }

  /** The scanner finds exactly what the pattern matches: since `>` is not an
      id character, the pattern can only match with the maximal run of id
      characters, which is the one the scanner measures. */
  lemma MentionAtStartIsRegex(s: string, pat: Pattern, n: nat)
    ensures RegexMentionAtStart(s, pat, n) <==> MentionAtStart(s, pat) == Some(n)
  {
    if |s| >= 2 {
      IdRunIsMaximal(s, 2);
    }
  }

  /** `s.replace(re, (match, id) => render(id))`: each mention found scanning
      left to right, without overlap, is replaced by the rendering of its id. */
  function ReplaceMentions(s: string, pat: Pattern, render: string -> string): string
    decreases |s|
  {
    if |s| == 0 then ""
    else
      match MentionAtStart(s, pat)
      case Some(n) => render(s[2..2 + n]) + ReplaceMentions(s[3 + n..], pat, render)
      case None => [s[0]] + ReplaceMentions(s[1..], pat, render)
  }

  /** The ids of the mentions `s.match(re)` finds, in text order. */
  function MentionIds(s: string, pat: Pattern): seq<string>
    decreases |s|
  {
    if |s| == 0 then []
    else
      match MentionAtStart(s, pat)
      case Some(n) => [s[2..2 + n]] + MentionIds(s[3 + n..], pat)
      case None => MentionIds(s[1..], pat)
  }

  /** A mention found at the start satisfies the pattern. */
  lemma MentionAtStartSound(s: string, pat: Pattern)
    requires MentionAtStart(s, pat).Some?
    ensures RegexMentionAtStart(s, pat, MentionAtStart(s, pat).value)
  {
    MentionAtStartIsRegex(s, pat, MentionAtStart(s, pat).value);
  }

  /** Every id found is a non-empty run of id characters, and for the
      user-id pattern starts with `U` and has a second character. */
  lemma {:induction false} MentionIdsAreIds(s: string, pat: Pattern)
    ensures forall id :: id in MentionIds(s, pat) ==>
              |id| >= 1 && AllIdChars(id) && (pat.UserId? ==> id[0] == 'U' && |id| >= 2)
    decreases |s|
  {
    if |s| > 0 {
      match MentionAtStart(s, pat)
      case Some(n) =>
        HeadMentionIsId(s, pat);
        MentionIdsAreIds(s[3 + n..], pat);
      case None =>
        MentionIdsAreIds(s[1..], pat);
    }
  }

  lemma HeadMentionIsId(s: string, pat: Pattern)
    requires MentionAtStart(s, pat).Some?
    ensures var id := s[2..2 + MentionAtStart(s, pat).value];
      |id| >= 1 && AllIdChars(id) && (pat.UserId? ==> id[0] == 'U' && |id| >= 2)
  {
    MentionAtStartSound(s, pat);
    var id := s[2..2 + MentionAtStart(s, pat).value];
    assert forall k :: 0 <= k < |id| ==> id[k] == s[2 + k];
  }

  /** The replacement looks at nothing but the mentioned ids: two renderings
      that agree on them give the same text. */
  lemma {:induction false} ReplaceDependsOnlyOnIds(s: string, pat: Pattern, r1: string -> string, r2: string -> string)
    requires forall id :: id in MentionIds(s, pat) ==> r1(id) == r2(id)
    ensures ReplaceMentions(s, pat, r1) == ReplaceMentions(s, pat, r2)
    decreases |s|
  {
    if |s| > 0 {
      match MentionAtStart(s, pat)
      case Some(n) =>
        ReplaceDependsOnlyOnIds(s[3 + n..], pat, r1, r2);
      case None =>
        ReplaceDependsOnlyOnIds(s[1..], pat, r1, r2);
    }
  }

  /** Rendering each mention as itself gives back the text: the scanner
      splits the text into mentions and the characters between them and
      loses nothing. */
  lemma {:induction false} ReplaceWithSelfIsIdentity(s: string, pat: Pattern)
    ensures ReplaceMentions(s, pat, SelfRender) == s
    decreases |s|
  {
    if |s| > 0 {
      match MentionAtStart(s, pat)
      case Some(n) =>
        ReplaceWithSelfIsIdentity(s[3 + n..], pat);
        SelfAtMention(s, pat, n);
      case None =>
        ReplaceWithSelfIsIdentity(s[1..], pat);
        SelfAtOther(s, pat);
    }
  }

  /** The inductive step at a character that starts no mention. */
  lemma SelfAtOther(s: string, pat: Pattern)
    requires |s| > 0 && MentionAtStart(s, pat).None?
    requires ReplaceMentions(s[1..], pat, SelfRender) == s[1..]
    ensures ReplaceMentions(s, pat, SelfRender) == s
  {
    assert s == [s[0]] + s[1..];
  }

  /** The inductive step at a mention. */
  lemma SelfAtMention(s: string, pat: Pattern, n: nat)
    requires |s| > 0 && MentionAtStart(s, pat) == Some(n)
    requires ReplaceMentions(s[3 + n..], pat, SelfRender) == s[3 + n..]
    ensures ReplaceMentions(s, pat, SelfRender) == s
  {
    MentionSplits(s, n);
  }

  /** A text starting with a mention is that mention written back, followed
      by the rest. */
  lemma MentionSplits(s: string, n: nat)
    requires 3 + n <= |s| && s[0] == '<' && s[1] == '@' && s[2 + n] == '>'
    ensures s == SelfRender(s[2..2 + n]) + s[3 + n..]
  {
    var head := SelfRender(s[2..2 + n]);
    assert head == s[..3 + n];
    assert s == s[..3 + n] + s[3 + n..];
  }

  /** A mention written back as itself. */
  function SelfRender(id: string): string {
    "<@" + id + ">"
  }

  /** Hence a rendering that keeps every mentioned id as it was (such as
      rewriting only the bot's id when the bot is not mentioned) leaves the
      text unchanged; in particular text without mentions is unchanged. */
  lemma UnchangedWhenIdsKept(s: string, pat: Pattern, render: string -> string)
    requires forall id :: id in MentionIds(s, pat) ==> render(id) == "<@" + id + ">"
    ensures ReplaceMentions(s, pat, render) == s
  {
    ReplaceDependsOnlyOnIds(s, pat, render, SelfRender);
    ReplaceWithSelfIsIdentity(s, pat);
  }
  /** Leading white space holds no mention. */
  lemma {:induction false} MentionIdsSkipLeadingSpace(sp: string, r: string, pat: Pattern)
    requires AllSpace(sp)
    ensures MentionIds(sp + r, pat) == MentionIds(r, pat)
    decreases |sp|
  {
    if |sp| > 0 {
      assert (sp + r)[0] == sp[0];
      assert MentionAtStart(sp + r, pat).None?;
      assert (sp + r)[1..] == sp[1..] + r;
      MentionIdsSkipLeadingSpace(sp[1..], r, pat);
    } else {
      assert sp + r == r;
    }
  }

  /** A mention is found at the start of `r + sp` exactly when it is found at
      the start of `r`: its closing `>` is not white space, so it lies in `r`. */
  lemma MentionAtStartIgnoresTrailingSpace(r: string, sp: string, pat: Pattern)
    requires AllSpace(sp)
    ensures MentionAtStart(r + sp, pat) == MentionAtStart(r, pat)
  {
    var s := r + sp;
    match MentionAtStart(s, pat)
    case Some(n) =>
      MentionAtStartSound(s, pat);
      assert 2 + n < |r|;
      assert RegexMentionAtStart(r, pat, n) by {
        assert forall k :: 0 <= k <= 2 + n ==> s[k] == r[k];
      }
      MentionAtStartIsRegex(r, pat, n);
    case None =>
      if MentionAtStart(r, pat).Some? {
        var n := MentionAtStart(r, pat).value;
        MentionAtStartSound(r, pat);
        assert RegexMentionAtStart(s, pat, n) by {
          assert forall k :: 0 <= k <= 2 + n ==> s[k] == r[k];
        }
        MentionAtStartIsRegex(s, pat, n);
      }
  }

  lemma MentionIdsAtMention(s: string, pat: Pattern, n: nat)
    requires |s| > 0 && MentionAtStart(s, pat) == Some(n)
    ensures MentionIds(s, pat) == [s[2..2 + n]] + MentionIds(s[3 + n..], pat)
  {
  }

  lemma MentionIdsAtNoMention(s: string, pat: Pattern)
    requires |s| > 0 && MentionAtStart(s, pat).None?
    ensures MentionIds(s, pat) == MentionIds(s[1..], pat)
  {
  }

  /** Trailing white space holds no mention. */
  lemma {:induction false} MentionIdsSkipTrailingSpace(r: string, sp: string, pat: Pattern)
    requires AllSpace(sp)
    ensures MentionIds(r + sp, pat) == MentionIds(r, pat)
    decreases |r|
  {
    if |r| == 0 {
      assert r + sp == sp + "";
      MentionIdsSkipLeadingSpace(sp, "", pat);
    } else {
      MentionAtStartIgnoresTrailingSpace(r, sp, pat);
      match MentionAtStart(r, pat)
      case Some(n) =>
        var s := r + sp;
        assert s[3 + n..] == r[3 + n..] + sp;
        assert s[2..2 + n] == r[2..2 + n];
        MentionIdsSkipTrailingSpace(r[3 + n..], sp, pat);
        MentionIdsAtMention(s, pat, n);
        MentionIdsAtMention(r, pat, n);
      case None =>
        var s := r + sp;
        assert s[1..] == r[1..] + sp;
        MentionIdsSkipTrailingSpace(r[1..], sp, pat);
        MentionIdsAtNoMention(s, pat);
        MentionIdsAtNoMention(r, pat);
    }
  }

  /** Trimming the text keeps its mentions: `s.trim()` and `s` mention the
      same ids in the same order. */
  lemma MentionIdsOfTrim(s: string, pat: Pattern)
    ensures MentionIds(Trim(s), pat) == MentionIds(s, pat)
  {
    var front, back := TrimSplits(s);
    PaddingHoldsNoMention(front, Trim(s), back, pat);
  }

  lemma PaddingHoldsNoMention(front: string, r: string, back: string, pat: Pattern)
    requires AllSpace(front) && AllSpace(back)
    ensures MentionIds(front + (r + back), pat) == MentionIds(r, pat)
  {
    MentionIdsSkipLeadingSpace(front, r + back, pat);
    MentionIdsSkipTrailingSpace(r, back, pat);
  }

  /** An id the user-id pattern accepts. */
  predicate IsUserIdText(id: string) {
    |id| >= 2 && id[0] == 'U'
  }

  function IsUserIdFn(): string -> bool {
    (id: string) => IsUserIdText(id)
  }

  /** A stretch of text without `<` holds no mention start. */
  lemma {:induction false} NoAngleNoMention(s: string, i: nat, j: nat, pat: Pattern)
    requires i <= j <= |s|
    requires forall k :: i <= k < j ==> s[k] != '<'
    ensures MentionIds(s[i..], pat) == MentionIds(s[j..], pat)
    decreases j - i
  {
    if i < j {
      assert s[i..][0] == s[i];
      MentionIdsAtNoMention(s[i..], pat);
      assert s[i..][1..] == s[i + 1..];
      NoAngleNoMention(s, i + 1, j, pat);
    }
  }

  /** The user-id pattern finds exactly the mentions of the general pattern
      whose id is a user id: the two global scans stay in step, because a
      mention holds no `<` after its first character. */
  lemma {:induction false} UserMentionsAreFilteredMentions(s: string)
    ensures MentionIds(s, UserId) == Filter(MentionIds(s, AnyId), IsUserIdFn())
    decreases |s|
  {
    if |s| > 0 {
      match MentionAtStart(s, AnyId)
      case Some(n) =>
        UserMentionsAreFilteredMentions(s[3 + n..]);
        FilteredAtMention(s, n);
      case None =>
        UserMentionsAreFilteredMentions(s[1..]);
        assert MentionAtStart(s, UserId).None?;
        MentionIdsAtNoMention(s, AnyId);
        MentionIdsAtNoMention(s, UserId);
    }
  }

  /** The inductive step at a mention of the general pattern. */
  lemma FilteredAtMention(s: string, n: nat)
    requires |s| > 0 && MentionAtStart(s, AnyId) == Some(n)
    requires MentionIds(s[3 + n..], UserId) == Filter(MentionIds(s[3 + n..], AnyId), IsUserIdFn())
    ensures MentionIds(s, UserId) == Filter(MentionIds(s, AnyId), IsUserIdFn())
  {
    var id := s[2..2 + n];
    MentionIdsAtMention(s, AnyId, n);
    FilterCons(id, MentionIds(s[3 + n..], AnyId), IsUserIdFn());
    if s[2] == 'U' && n >= 2 {
      UserMentionAt(s, n);
    } else {
      OtherMentionSkipped(s, n);
    }
  }

  /** A user-id mention starts both scans alike. */
  lemma UserMentionAt(s: string, n: nat)
    requires |s| > 0 && MentionAtStart(s, AnyId) == Some(n) && s[2] == 'U' && n >= 2
    ensures MentionIds(s, UserId) == [s[2..2 + n]] + MentionIds(s[3 + n..], UserId)
  {
    assert MentionAtStart(s, UserId) == Some(n);
    MentionIdsAtMention(s, UserId, n);
  }

  /** The user-id scan passes over any other mention. */
  lemma OtherMentionSkipped(s: string, n: nat)
    requires |s| > 0 && MentionAtStart(s, AnyId) == Some(n) && !(s[2] == 'U' && n >= 2)
    ensures MentionIds(s, UserId) == MentionIds(s[3 + n..], UserId)
  {
    assert MentionAtStart(s, UserId).None?;
    MentionIdsAtNoMention(s, UserId);
    NoAngleInsideMention(s, AnyId);
    NoAngleNoMention(s, 1, 3 + n, UserId);
  }

  /** After its `<`, a mention holds no other `<`. */
  lemma NoAngleInsideMention(s: string, pat: Pattern)
    requires MentionAtStart(s, pat).Some?
    ensures forall k :: 1 <= k < 3 + MentionAtStart(s, pat).value ==> s[k] != '<'
  {
    MentionAtStartSound(s, pat);
  }

  /** Hence every user-id mention the general pattern finds is one the
      user-id pattern finds too. */
  lemma UserIdMentionsSeenByBoth(s: string, id: string)
    requires id in MentionIds(s, AnyId) && IsUserIdText(id)
    ensures id in MentionIds(s, UserId)
  {
    UserMentionsAreFilteredMentions(s);
  }
}
