/** Recognising and extracting issue keys (`PROJ-123`) in free text, against
    the registry of known project keys. The regular expression
    `KEY-\d+(?:[^\w-]|$)` with the `i` flag is replaced by a hand-written
    scanner, and a lemma shows the scanner agrees with the backtracking
    reading of the expression. */
module IssueKeys {
  import opened Common

  /** `[\w-]`: ASCII letters and digits, `_` and `-`. */
  predicate IsWordOrHyphen(c: char) {
    IsAsciiUpper(c) || IsAsciiLower(c) || IsAsciiDigit(c) || c == '_' || c == '-'
  }

  predicate AllDigits(s: string) {
    forall i :: 0 <= i < |s| ==> IsAsciiDigit(s[i])
  }

  /** Length of the longest run of digits starting at `p`. */
  function DigitRunLength(s: string, p: nat): (n: nat)
    requires p <= |s|
    ensures p + n <= |s|
    decreases |s| - p
  {
    if p < |s| && IsAsciiDigit(s[p]) then 1 + DigitRunLength(s, p + 1) else 0
  }

  /** The run is all digits and cannot be extended. */
  lemma {:induction false} DigitRunIsMaximal(s: string, p: nat)
    requires p <= |s|
    ensures AllDigits(s[p..p + DigitRunLength(s, p)])
    ensures p + DigitRunLength(s, p) == |s| || !IsAsciiDigit(s[p + DigitRunLength(s, p)])
    decreases |s| - p
  {
    if p < |s| && IsAsciiDigit(s[p]) {
      var n := DigitRunLength(s, p + 1);
      DigitRunIsMaximal(s, p + 1);
      assert s[p..p + 1 + n] == [s[p]] + s[p + 1..p + 1 + n];
    }
  }

  /** The pattern for `key` matches `text` at offset `i`: the key in any ASCII
      casing, a hyphen, the whole digit run after it (at least one digit), and
      then the end of the text or a character outside `[A-Za-z0-9_-]`. */
  predicate MatchAt(text: string, key: string, i: int) {
    && 0 <= i && i + |key| < |text|
    && CaseInsensitiveEq(text[i..i + |key|], key)
    && text[i + |key|] == '-'
    && var p := i + |key| + 1;
       var d := DigitRunLength(text, p);
       d >= 1 && (p + d == |text| || !IsWordOrHyphen(text[p + d]))
  }

  /** The regular expression's own reading, with backtracking over the length
      `k` of the `\d+` part. */
  ghost predicate RegexMatchAt(text: string, key: string, i: int) {
    && 0 <= i && i + |key| < |text|
    && CaseInsensitiveEq(text[i..i + |key|], key)
    && text[i + |key|] == '-'
    && exists k :: DigitsThenBoundary(text, key, i, k)
  }

  /** `\d+` taking `k` digits after the key and hyphen at `i`, then `[^\w-]|$`. */
  ghost predicate DigitsThenBoundary(text: string, key: string, i: int, k: int) {
    var p := i + |key| + 1;
    && 0 <= p && 1 <= k && p + k <= |text|
    && AllDigits(text[p..p + k])
    && (p + k == |text| || !IsWordOrHyphen(text[p + k]))
  }

  /** Backtracking cannot help: a digit is itself a word character, so the only
      split of the digits that can be followed by the boundary is the longest. */
  lemma MatchAtIsRegexMatch(text: string, key: string, i: int)
    ensures MatchAt(text, key, i) <==> RegexMatchAt(text, key, i)
  {
    if RegexMatchAt(text, key, i) {
      var p := i + |key| + 1;
      var k :| DigitsThenBoundary(text, key, i, k);
      DigitRunIsMaximal(text, p);
      LongestDigitSplit(text, p, k);
    }
    if MatchAt(text, key, i) {
      DigitRunIsMaximal(text, i + |key| + 1);
      assert DigitsThenBoundary(text, key, i, DigitRunLength(text, i + |key| + 1));
    }
  }

  /** A run of `k` digits at `p` followed by a non-word character is the
      maximal run. */
  lemma {:induction false} LongestDigitSplit(s: string, p: nat, k: nat)
    requires p + k <= |s| && AllDigits(s[p..p + k])
    requires p + k == |s| || !IsWordOrHyphen(s[p + k])
    ensures k == DigitRunLength(s, p)
    decreases k
  {
    if k > 0 {
      assert IsAsciiDigit(s[p..p + k][0]);
      assert s[p + 1..p + k] == s[p..p + k][1..];
      LongestDigitSplit(s, p + 1, k - 1);
    }
  }

  function MatchesFrom(text: string, key: string, i: nat): (r: bool)
    requires i <= |text|
    ensures r <==> exists j :: i <= j < |text| && MatchAt(text, key, j)
    decreases |text| - i
  {
    if i == |text| then false
    else if MatchAt(text, key, i) then true
    else
      MatchesFrom(text, key, i + 1)
  }

  /** `matchesJiraKeyPattern`: the pattern is not anchored on the left, so it
      may match anywhere in the text. */
  function MatchesJiraKeyPattern(text: string, key: string): (r: bool)
    ensures r <==> exists j :: MatchAt(text, key, j)
  {
    MatchesFrom(text, key, 0)
  }

  /** `isJiraIssueKeyProvided`: some registered key matches. */
  function IsJiraIssueKeyProvided(text: string, keys: seq<string>): (r: bool)
    ensures r <==> exists i :: 0 <= i < |keys| && MatchesJiraKeyPattern(text, keys[i])
    ensures |keys| == 0 ==> !r
    decreases |keys|
  {
    if |keys| == 0 then false
    else if MatchesJiraKeyPattern(text, keys[0]) then true
    else
      var r := IsJiraIssueKeyProvided(text, keys[1..]);
      assert forall i :: 1 <= i < |keys| ==> keys[i] == keys[1..][i - 1];
      r
  }

  // ---------------------------------------------------------------------------
  // The unit tests of the matcher

  lemma MatchesPlainKey()
    ensures MatchesJiraKeyPattern("PROJ-123", "PROJ")
  {
    var t := "PROJ-123";
    assert t[0..4] == "PROJ";
    assert DigitRunLength(t, 8) == 0;
    assert DigitRunLength(t, 5) == 3;
    assert MatchAt(t, "PROJ", 0);
  }

  lemma MatchesKeyInsideText()
    ensures MatchesJiraKeyPattern("Some text PROJ-123 more text", "PROJ")
  {
    var t := "Some text PROJ-123 more text";
    assert t[10..14] == "PROJ";
    assert DigitRunLength(t, 18) == 0;
    assert DigitRunLength(t, 15) == 3;
    assert MatchAt(t, "PROJ", 10);
  }

  lemma MatchesLowerCaseKey()
    ensures MatchesJiraKeyPattern("proj-123", "PROJ")
  {
    var t := "proj-123";
    assert CaseInsensitiveEq(t[0..4], "PROJ");
    assert DigitRunLength(t, 8) == 0;
    assert DigitRunLength(t, 5) == 3;
    assert MatchAt(t, "PROJ", 0);
  }

  lemma MatchesKeyBeforePunctuation()
    ensures MatchesJiraKeyPattern("proj-1234?", "PROJ")
  {
    var t := "proj-1234?";
    assert CaseInsensitiveEq(t[0..4], "PROJ");
    assert DigitRunLength(t, 9) == 0;
    assert DigitRunLength(t, 5) == 4;
    assert MatchAt(t, "PROJ", 0);
  }

  /** A match needs a hyphen right after the key. */
  lemma HyphenAfterKey(text: string, key: string, j: int)
    requires MatchAt(text, key, j)
    ensures text[j + |key|] == '-'
  {
  }

  lemma RejectsMissingHyphen()
    ensures !MatchesJiraKeyPattern("PROJ123", "PROJ")
  {
    forall j ensures !MatchAt("PROJ123", "PROJ", j) {
      if 0 <= j < 3 {
        assert "PROJ123"[j + 4] != '-';
      }
    }
  }

  lemma RejectsMissingDigits()
    ensures !MatchesJiraKeyPattern("PROJ-", "PROJ")
  {
    assert DigitRunLength("PROJ-", 5) == 0;
  }

  lemma RejectsLongerProject()
    ensures !MatchesJiraKeyPattern("PROJX-123", "PROJ")
  {
    var t := "PROJX-123";
    forall j ensures !MatchAt(t, "PROJ", j) {
      if 0 <= j < 5 && j != 1 {
        assert t[j + 4] != '-';
      } else if j == 1 {
        assert UpperChar(t[1..5][0]) != UpperChar("PROJ"[0]);
      }
    }
  }

  lemma RejectsOtherProject()
    ensures !MatchesJiraKeyPattern("OTHER-123", "PROJ")
  {
    var t := "OTHER-123";
    forall j ensures !MatchAt(t, "PROJ", j) {
      if 0 <= j < 5 && j != 1 {
        assert t[j + 4] != '-';
      } else if j == 1 {
        assert UpperChar(t[1..5][0]) != UpperChar("PROJ"[0]);
      }
    }
  }

  // ---------------------------------------------------------------------------
  // Tokenising

  /** `[\s,;]`. */
  predicate IsWordSeparator(c: char) {
    IsJsSpace(c) || c == ',' || c == ';'
  }

  predicate NoSeparator(s: string) {
    forall i :: 0 <= i < |s| ==> !IsWordSeparator(s[i])
  }

  /** Removes the run of separators at the front. */
  function DropSeparators(s: string): (r: string)
    ensures |r| <= |s| && r == s[|s| - |r|..]
    ensures |r| == 0 || !IsWordSeparator(r[0])
    ensures forall i :: 0 <= i < |s| - |r| ==> IsWordSeparator(s[i])
    decreases |s|
  {
    if |s| > 0 && IsWordSeparator(s[0]) then
      var r := DropSeparators(s[1..]);
      assert forall i :: 1 <= i < |s| - |r| ==> s[i] == s[1..][i - 1];
      r
    else s
  }

  /** `text.split(/[\s,;]+/)`: the fields between maximal runs of separators;
      a leading or trailing run yields an empty first or last field. */
  function SplitWords(s: string): (r: seq<string>)
    ensures |r| >= 1
    ensures forall i :: 0 <= i < |r| ==> NoSeparator(r[i])
    decreases |s|
  {
    if |s| == 0 then [""]
    else if IsWordSeparator(s[0]) then [""] + SplitWords(DropSeparators(s))
    else
      var rest := SplitWords(s[1..]);
      var w := [s[0]] + rest[0];
      assert forall i :: 1 <= i < |w| ==> w[i] == rest[0][i - 1];
      [w] + rest[1..]
  }

  function Concat(ws: seq<string>): string {
    if |ws| == 0 then [] else ws[0] + Concat(ws[1..])
  }

  /** `s` with every separator removed. */
  function WithoutSeparators(s: string): (r: string)
    ensures NoSeparator(r)
  {
    if |s| == 0 then []
    else if IsWordSeparator(s[0]) then WithoutSeparators(s[1..])
    else [s[0]] + WithoutSeparators(s[1..])
  }

  lemma {:induction false} WithoutLeadingSeparators(s: string)
    ensures WithoutSeparators(DropSeparators(s)) == WithoutSeparators(s)
    decreases |s|
  {
    if |s| > 0 && IsWordSeparator(s[0]) {
      WithoutLeadingSeparators(s[1..]);
    }
  }

  /** Splitting loses exactly the separators: the fields, put back together,
      are the text without its separators, in order. */
  lemma {:induction false} SplitWordsKeepsText(s: string)
    ensures Concat(SplitWords(s)) == WithoutSeparators(s)
    decreases |s|
  {
    if |s| == 0 {
    } else if IsWordSeparator(s[0]) {
      SplitWordsKeepsText(DropSeparators(s));
      WithoutLeadingSeparators(s);
      assert Concat([""] + SplitWords(DropSeparators(s))) == Concat(SplitWords(DropSeparators(s)));
    } else {
      var rest := SplitWords(s[1..]);
      SplitWordsKeepsText(s[1..]);
      assert ([s[0]] + rest[0]) + Concat(rest[1..]) == [s[0]] + (rest[0] + Concat(rest[1..]));
    }
  }

  // ---------------------------------------------------------------------------
  // Normalising a matching token

  /** `keys.find(k => matchesJiraKeyPattern(token, k))`. */
  function FirstMatchingKey(token: string, keys: seq<string>): (r: Option<string>)
    ensures r.Some? <==> IsJiraIssueKeyProvided(token, keys)
    ensures r.Some? ==> r.value in keys && MatchesJiraKeyPattern(token, r.value)
    decreases |keys|
  {
    if |keys| == 0 then None
    else if MatchesJiraKeyPattern(token, keys[0]) then Some(keys[0])
    else FirstMatchingKey(token, keys[1..])
  }

  /** What the search finds is the first matching key of the registry. */
  lemma {:induction false} FirstMatchingKeyIsFind(token: string, keys: seq<string>)
    ensures FirstMatchingKey(token, keys).Some? ==>
              exists i :: 0 <= i < |keys| && keys[i] == FirstMatchingKey(token, keys).value
                          && forall j :: 0 <= j < i ==> !MatchesJiraKeyPattern(token, keys[j])
    decreases |keys|
  {
    if |keys| > 0 && !MatchesJiraKeyPattern(token, keys[0]) {
      FirstMatchingKeyIsFind(token, keys[1..]);
      assert forall i :: 1 <= i < |keys| ==> keys[i] == keys[1..][i - 1];
      if FirstMatchingKey(token, keys).Some? {
        var i :| 0 <= i < |keys[1..]| && keys[1..][i] == FirstMatchingKey(token, keys).value
                 && forall j :: 0 <= j < i ==> !MatchesJiraKeyPattern(token, keys[1..][j]);
        assert keys[i + 1] == FirstMatchingKey(token, keys).value;
      }
    }
  }

  /** The run of digits `d` starts at `i` and cannot be extended either way. */
  predicate DigitRunAt(s: string, d: string, i: int) {
    && 0 <= i && i + |d| <= |s| && s[i..i + |d|] == d
    && |d| >= 1 && AllDigits(d)
    && (i == 0 || !IsAsciiDigit(s[i - 1]))
    && (i + |d| == |s| || !IsAsciiDigit(s[i + |d|]))
  }

  function FirstDigitRunFrom(s: string, i: nat): (r: Option<string>)
    requires i <= |s| && (i == 0 || !IsAsciiDigit(s[i - 1]))
    ensures r.None? <==> forall j :: i <= j < |s| ==> !IsAsciiDigit(s[j])
    ensures r.Some? ==> exists k :: i <= k && DigitRunAt(s, r.value, k)
                          && forall j :: i <= j < k ==> !IsAsciiDigit(s[j])
    decreases |s| - i
  {
    if i == |s| then None
    else if IsAsciiDigit(s[i]) then
      var d := s[i..i + DigitRunLength(s, i)];
      DigitRunIsMaximal(s, i);
      assert DigitRunAt(s, d, i);
      Some(d)
    else FirstDigitRunFrom(s, i + 1)
  }

  /** `token.match(/\d+/)[0]`: the leftmost maximal run of digits. */
  function FirstDigitRun(s: string): (r: Option<string>)
    ensures r.None? <==> forall j :: 0 <= j < |s| ==> !IsAsciiDigit(s[j])
    ensures r.Some? ==> exists k :: DigitRunAt(s, r.value, k)
                          && forall j :: 0 <= j < k ==> !IsAsciiDigit(s[j])
  {
    FirstDigitRunFrom(s, 0)
  }

  /** The normalisation as written: the first registry key that matches, a
      hyphen, and the first digit run found ANYWHERE in the token; the token is
      kept as it is when either lookup fails. */
  function NormalizeTokenAsWritten(token: string, keys: seq<string>): string {
    match FirstMatchingKey(token, keys)
    case None => token
    case Some(p) =>
      match FirstDigitRun(token)
      case None => token
      case Some(d) => p + "-" + d
  }

  /** The two fallbacks of the normalisation never fire on a token that passed
      the filter: a matching key exists, and the match itself holds a digit. */
  lemma NormalizeAlwaysRewrites(token: string, keys: seq<string>)
    requires IsJiraIssueKeyProvided(token, keys)
    ensures FirstMatchingKey(token, keys).Some?
    ensures FirstDigitRun(token).Some?
    ensures NormalizeTokenAsWritten(token, keys)
            == FirstMatchingKey(token, keys).value + "-" + FirstDigitRun(token).value
  {
    MatchHoldsDigit(token, FirstMatchingKey(token, keys).value);
  }

  /** A match holds a digit, so the token has a first digit run. */
  lemma MatchHoldsDigit(token: string, key: string)
    requires MatchesJiraKeyPattern(token, key)
    ensures FirstDigitRun(token).Some?
  {
    var j :| MatchAt(token, key, j);
    var q := j + |key| + 1;
    assert IsAsciiDigit(token[q]);
  }

  /** The first offset at which `key`'s pattern matches. */
  function FirstMatchFrom(text: string, key: string, i: nat): (r: Option<nat>)
    requires i <= |text|
    ensures r.None? <==> forall j :: i <= j < |text| ==> !MatchAt(text, key, j)
    ensures r.Some? ==> i <= r.value < |text| && MatchAt(text, key, r.value)
                         && forall j :: i <= j < r.value ==> !MatchAt(text, key, j)
    decreases |text| - i
  {
    if i == |text| then None
    else if MatchAt(text, key, i) then Some(i)
    else FirstMatchFrom(text, key, i + 1)
  }

  /** The digits of the match of `key` at offset `j`. */
  function MatchedDigits(token: string, key: string, j: nat): (d: string)
    requires MatchAt(token, key, j)
    ensures DigitRunAt(token, d, j + |key| + 1)
  {
    var q := j + |key| + 1;
    DigitRunIsMaximal(token, q);
    token[q..q + DigitRunLength(token, q)]
  }

  /** The corrected normalisation: the first registry key that matches, and
      the digits that follow that key's first occurrence in the token. */
  function NormalizeToken(token: string, keys: seq<string>): (r: string)
    ensures !IsJiraIssueKeyProvided(token, keys) ==> r == token
    ensures IsJiraIssueKeyProvided(token, keys) ==>
              exists j :: MatchAt(token, FirstMatchingKey(token, keys).value, j)
                          && r == FirstMatchingKey(token, keys).value + "-"
                                  + MatchedDigits(token, FirstMatchingKey(token, keys).value, j)
  {
    match FirstMatchingKey(token, keys)
    case None => token
    case Some(p) =>
      match FirstMatchFrom(token, p, 0)
      case None => token
      case Some(j) => p + "-" + MatchedDigits(token, p, j)
  }

  // ---------------------------------------------------------------------------
  // Extraction

  /** The tokens of `text` that match some registered key, each as often as
      it occurs, in text order. */
  function MatchingWords(text: string, keys: seq<string>): (ws: seq<string>)
    ensures IsSubseq(ws, SplitWords(text))
    ensures forall w :: multiset(ws)[w] == if IsJiraIssueKeyProvided(w, keys) then multiset(SplitWords(text))[w] else 0
    ensures forall w :: w in ws <==> w in SplitWords(text) && IsJiraIssueKeyProvided(w, keys)
    ensures |keys| == 0 ==> ws == []
  {
    var ws := Filter(SplitWords(text), (w: string) => IsJiraIssueKeyProvided(w, keys));
    assert |ws| > 0 ==> ws[0] in ws;
    ws
  }

  function NormalizeAsWrittenFn(keys: seq<string>): string -> string {
    (w: string) => NormalizeTokenAsWritten(w, keys)
  }

  function NormalizeFn(keys: seq<string>): string -> string {
    (w: string) => NormalizeToken(w, keys)
  }

  /** The key each matching token yields as written, in text order, repeats
      included. */
  function WordKeysAsWritten(text: string, keys: seq<string>): seq<string> {
    Map(MatchingWords(text, keys), NormalizeAsWrittenFn(keys))
  }

  /** The key each matching token yields, in text order, repeats included. */
  function WordKeys(text: string, keys: seq<string>): seq<string> {
    Map(MatchingWords(text, keys), NormalizeFn(keys))
  }

  /** `extractJiraIssueKeys` as written: the tokens that match some registered
      key, each normalised, without duplicates. */
  function ExtractIssueKeysAsWritten(text: string, keys: seq<string>): (r: seq<string>)
    ensures Distinct(r)
    ensures forall x :: x in r <==>
              exists w :: w in MatchingWords(text, keys) && x == NormalizeTokenAsWritten(w, keys)
    ensures |keys| == 0 ==> r == []
  {
    DistinctImages(MatchingWords(text, keys), NormalizeAsWrittenFn(keys))
  }

  /** What the as-written extraction yields: each key is the first registry key
      matching some token, a hyphen, and the first digit run anywhere in that
      token. */
  lemma ExtractAsWrittenShape(text: string, keys: seq<string>, x: string)
    requires x in ExtractIssueKeysAsWritten(text, keys)
    ensures exists w :: w in SplitWords(text) && IsJiraIssueKeyProvided(w, keys)
                        && x == FirstMatchingKey(w, keys).value + "-" + FirstDigitRun(w).value
  {
    var w :| w in MatchingWords(text, keys) && x == NormalizeTokenAsWritten(w, keys);
    NormalizeAlwaysRewrites(w, keys);
  }

  /** `extractJiraIssueKeys` with the corrected normalisation: the keys the
      matching tokens yield, without duplicates. */
  function ExtractIssueKeys(text: string, keys: seq<string>): (r: seq<string>)
    ensures Distinct(r)
    ensures forall x :: x in r <==>
              exists w :: w in MatchingWords(text, keys) && x == NormalizeToken(w, keys)
    ensures |keys| == 0 ==> r == []
  {
    DistinctImages(MatchingWords(text, keys), NormalizeFn(keys))
  }

  /** Both extractions list the keys in the order of the first matching
      token that yields each. */
  lemma ExtractKeepsTokenOrder(text: string, keys: seq<string>)
    ensures var r := ExtractIssueKeys(text, keys);
      && (forall x :: x in r <==> x in WordKeys(text, keys))
      && forall i, j :: 0 <= i < j < |r| ==>
           FirstIndexOf(WordKeys(text, keys), r[i]) < FirstIndexOf(WordKeys(text, keys), r[j])
    ensures var r := ExtractIssueKeysAsWritten(text, keys);
      && (forall x :: x in r <==> x in WordKeysAsWritten(text, keys))
      && forall i, j :: 0 <= i < j < |r| ==>
           FirstIndexOf(WordKeysAsWritten(text, keys), r[i]) < FirstIndexOf(WordKeysAsWritten(text, keys), r[j])
  {
  }

  /** Both extractions find no key exactly when no token names a registered
      issue: the two normalisations differ only in the digits they keep. */
  lemma ExtractionsEmptyTogether(text: string, keys: seq<string>)
    ensures ExtractIssueKeysAsWritten(text, keys) == [] <==> MatchingWords(text, keys) == []
    ensures ExtractIssueKeys(text, keys) == [] <==> MatchingWords(text, keys) == []
  {
    var ws := MatchingWords(text, keys);
    if ws != [] {
      assert NormalizeTokenAsWritten(ws[0], keys) in ExtractIssueKeysAsWritten(text, keys);
      assert NormalizeToken(ws[0], keys) in ExtractIssueKeys(text, keys);
    }
  }

  /** A registered key, as the tracker hands it out: non-empty, upper-case
      ASCII letters, digits and `_`. */
  predicate ValidProjectKey(p: string) {
    |p| > 0 && forall i :: 0 <= i < |p| ==> IsAsciiUpper(p[i]) || IsAsciiDigit(p[i]) || p[i] == '_'
  }

  /** A text without separators is a single word (the empty text included). */
  lemma {:induction false} SingleTokenSplit(s: string)
    requires NoSeparator(s)
    ensures SplitWords(s) == [s]
    decreases |s|
  {
    if |s| > 0 {
      SingleTokenSplit(s[1..]);
      assert [s[0]] + s[1..] == s;
    }
  }

  predicate AllSeparators(g: string) {
    forall i :: 0 <= i < |g| ==> IsWordSeparator(g[i])
  }

  /** A whole run of separators is dropped, and nothing after it. */
  lemma {:induction false} DropSeparatorRun(g: string, rest: string)
    requires AllSeparators(g)
    requires |rest| == 0 || !IsWordSeparator(rest[0])
    ensures DropSeparators(g + rest) == rest
    decreases |g|
  {
    if |g| > 0 {
      assert (g + rest)[1..] == g[1..] + rest;
      DropSeparatorRun(g[1..], rest);
    } else {
      assert g + rest == rest;
    }
  }

  /** Where the words break: a word, then a maximal run of separators, gives
      that word followed by the words of the rest. */
  lemma {:induction false} SplitWordsAtSeparatorRun(w: string, g: string, rest: string)
    requires NoSeparator(w)
    requires |g| > 0 && AllSeparators(g)
    requires |rest| == 0 || !IsWordSeparator(rest[0])
    ensures SplitWords(w + g + rest) == [w] + SplitWords(rest)
    decreases |w|
  {
    var t := w + g + rest;
    if |w| == 0 {
      assert t == g + rest;
      assert IsWordSeparator(t[0]);
      DropSeparatorRun(g, rest);
    } else {
      assert t[1..] == w[1..] + g + rest;
      assert !IsWordSeparator(t[0]);
      SplitWordsAtSeparatorRun(w[1..], g, rest);
      assert [w[0]] + w[1..] == w;
    }
  }

  /** `v-n` for a casing `v` of a valid key and a number `n` is one token, and
      the key's pattern matches it at offset 0 with digits `n`. */
  lemma KeyTokenMatches(p: string, v: string, n: string)
    requires ValidProjectKey(p) && CaseInsensitiveEq(v, p)
    requires |n| >= 1 && AllDigits(n)
    ensures NoSeparator(v + "-" + n)
    ensures MatchAt(v + "-" + n, p, 0)
    ensures MatchedDigits(v + "-" + n, p, 0) == n
  {
    var t := v + "-" + n;
    assert t[0..|v|] == v;
    forall i | 0 <= i < |t| ensures !IsWordSeparator(t[i]) {
      if i < |v| {
        assert UpperChar(t[i]) == UpperChar(p[i]);
      } else if i > |v| {
        assert t[i] == n[i - |v| - 1];
      }
    }
    var q := |p| + 1;
    assert t[q..q + |n|] == n;
    LongestDigitSplit(t, q, |n|);
  }

  /** The intended normalisation, proved for the corrected version: the key
      written in any ASCII casing, followed by a hyphen and a number, yields
      the registry's spelling of the key and the same number. */
  lemma ExtractCanonicalizesCase(keys: seq<string>, p: string, v: string, n: string)
    requires ValidProjectKey(p) && CaseInsensitiveEq(v, p)
    requires |n| >= 1 && AllDigits(n)
    requires FirstMatchingKey(v + "-" + n, keys) == Some(p)
    ensures ExtractIssueKeys(v + "-" + n, keys) == [p + "-" + n]
  {
    var t := v + "-" + n;
    KeyTokenMatches(p, v, n);
    SingleTokenSplit(t);
    assert FirstMatchFrom(t, p, 0) == Some(0);
    assert NormalizeToken(t, keys) == p + "-" + n;
    MatchingWordsOfSingleToken(t, keys);
    ExtractOfSingleToken(t, keys);
  }

  lemma ProjectWithDigitMatches()
    ensures MatchAt("AB1-23", "AB1", 0)
    ensures FirstMatchingKey("AB1-23", ["AB1"]) == Some("AB1")
  {
    assert "AB1" + "-" + "23" == "AB1-23";
    KeyTokenMatches("AB1", "AB1", "23");
    assert MatchesJiraKeyPattern("AB1-23", "AB1");
    var ks := ["AB1"];
    assert ks[0] == "AB1";
  }

  lemma MatchingWordsOfSingleToken(t: string, keys: seq<string>)
    requires NoSeparator(t) && |t| > 0 && IsJiraIssueKeyProvided(t, keys)
    ensures MatchingWords(t, keys) == [t]
  {
    SingleTokenSplit(t);
    assert MatchingWords(t, keys) == Filter([t], (w: string) => IsJiraIssueKeyProvided(w, keys));
  }

  lemma ExtractOfSingleToken(t: string, keys: seq<string>)
    requires MatchingWords(t, keys) == [t]
    ensures ExtractIssueKeys(t, keys) == [NormalizeToken(t, keys)]
    ensures ExtractIssueKeysAsWritten(t, keys) == [NormalizeTokenAsWritten(t, keys)]
  {
    var x := NormalizeToken(t, keys);
    assert Map([t], NormalizeFn(keys)) == [x];
    assert [x][..0] == [];
    var y := NormalizeTokenAsWritten(t, keys);
    assert Map([t], NormalizeAsWrittenFn(keys)) == [y];
    assert [y][..0] == [];
  }

  /** A digit run that stops inside `s` is not extended by a suffix that
      starts with a non-digit. */
  lemma {:induction false} DigitRunLengthOfPrefix(s: string, t: string, p: nat)
    requires p <= |s| && (|t| == 0 || !IsAsciiDigit(t[0]))
    ensures DigitRunLength(s + t, p) == DigitRunLength(s, p)
    decreases |s| - p
  {
    if p < |s| {
      assert (s + t)[p] == s[p];
      if IsAsciiDigit(s[p]) {
        DigitRunLengthOfPrefix(s, t, p + 1);
      }
    } else if |t| > 0 {
      assert (s + t)[p] == t[0];
    }
  }

  /** The first digit run of `s` stays the first one after appending a
      suffix that starts with a non-digit. */
  lemma {:induction false} FirstDigitRunOfPrefix(s: string, t: string, i: nat)
    requires i <= |s| && (i == 0 || !IsAsciiDigit(s[i - 1]))
    requires |t| == 0 || !IsAsciiDigit(t[0])
    requires FirstDigitRunFrom(s, i).Some?
    ensures i == 0 || !IsAsciiDigit((s + t)[i - 1])
    ensures FirstDigitRunFrom(s + t, i) == FirstDigitRunFrom(s, i)
    decreases |s| - i
  {
    if i > 0 {
      assert (s + t)[i - 1] == s[i - 1];
    }
    assert (s + t)[i] == s[i];
    if IsAsciiDigit(s[i]) {
      DigitRunLengthOfPrefix(s, t, i);
      var n := DigitRunLength(s, i);
      assert (s + t)[i..i + n] == s[i..i + n];
      assert FirstDigitRunFrom(s + t, i) == Some((s + t)[i..i + n]);
      assert FirstDigitRunFrom(s, i) == Some(s[i..i + n]);
    } else {
      FirstDigitRunOfPrefix(s, t, i + 1);
      assert FirstDigitRunFrom(s + t, i) == FirstDigitRunFrom(s + t, i + 1);
    }
  }

  /** The normalisation as written gives a key token the registered key and
      the first digits of the key as typed, when it has any. */
  lemma NormalizeAsWrittenOfKeyToken(keys: seq<string>, p: string, v: string, n: string)
    requires FirstMatchingKey(v + "-" + n, keys) == Some(p)
    requires FirstDigitRun(v).Some?
    ensures NormalizeTokenAsWritten(v + "-" + n, keys) == p + "-" + FirstDigitRun(v).value
  {
    FirstDigitRunOfKeyToken(v, n);
  }

  /** Text after a hyphen does not change the first digits of a prefix that
      has some. */
  lemma FirstDigitRunOfKeyToken(v: string, n: string)
    requires FirstDigitRun(v).Some?
    ensures FirstDigitRun(v + "-" + n) == FirstDigitRun(v)
  {
    var u := "-" + n;
    assert v + u == v + "-" + n;
    assert u[0] == '-';
    FirstDigitRunOfPrefix(v, u, 0);
  }

  /** The normalisation as written takes the first digits anywhere in the
      token. For a registered key that itself holds a digit, the key written
      in any casing and followed by a number `n` is extracted with the key's
      own first digits instead of `n`: whenever those differ from `n`, the
      corrected extraction gives another key. */
  lemma ExtractAsWrittenTakesKeyDigits(keys: seq<string>, p: string, v: string, n: string)
    requires ValidProjectKey(p) && CaseInsensitiveEq(v, p)
    requires |n| >= 1 && AllDigits(n)
    requires FirstMatchingKey(v + "-" + n, keys) == Some(p)
    requires FirstDigitRun(v).Some?
    ensures ExtractIssueKeysAsWritten(v + "-" + n, keys) == [p + "-" + FirstDigitRun(v).value]
    ensures FirstDigitRun(v).value != n ==>
              ExtractIssueKeysAsWritten(v + "-" + n, keys) != ExtractIssueKeys(v + "-" + n, keys)
  {
    var t := v + "-" + n;
    var d := FirstDigitRun(v).value;
    KeyTokenMatches(p, v, n);
    NormalizeAsWrittenOfKeyToken(keys, p, v, n);
    MatchingWordsOfSingleToken(t, keys);
    ExtractOfSingleToken(t, keys);
    ExtractCanonicalizesCase(keys, p, v, n);
    if d != n {
      KeysWithOtherDigitsDiffer(p, d, n);
    }
  }

  lemma KeysWithOtherDigitsDiffer(p: string, d: string, n: string)
    requires d != n
    ensures [p + "-" + d] != [p + "-" + n]
  {
    assert (p + "-" + d)[|p| + 1..] == d;
    assert (p + "-" + n)[|p| + 1..] == n;
  }

  lemma FirstDigitsOfProjectWithDigit()
    ensures FirstDigitRun("AB1-23") == Some("1")
  {
    var t := "AB1-23";
    assert DigitRunLength(t, 3) == 0;
    assert DigitRunLength(t, 2) == 1;
    assert t[2..3] == "1";
    assert FirstDigitRunFrom(t, 2) == Some("1");
    assert FirstDigitRunFrom(t, 1) == Some("1");
  }

  lemma NormalizeAsWrittenProjectWithDigit()
    ensures NormalizeTokenAsWritten("AB1-23", ["AB1"]) == "AB1-1"
  {
    ProjectWithDigitMatches();
    FirstDigitsOfProjectWithDigit();
  }

  /** The instance: `AB1-23` with project key `AB1` becomes `AB1-1`. */
  lemma ExtractAsWrittenLosesNumber()
    ensures ExtractIssueKeysAsWritten("AB1-23", ["AB1"]) == ["AB1-1"]
  {
    var t := "AB1-23";
    assert "AB1" + "-" + "23" == t;
    KeyTokenMatches("AB1", "AB1", "23");
    ProjectWithDigitMatches();
    MatchingWordsOfSingleToken(t, ["AB1"]);
    NormalizeAsWrittenProjectWithDigit();
    ExtractOfSingleToken(t, ["AB1"]);
  }

  /** The corrected normalisation keeps the issue number of the same input. */
  lemma ExtractKeepsNumber()
    ensures ExtractIssueKeys("AB1-23", ["AB1"]) == ["AB1-23"]
  {
    assert "AB1" + "-" + "23" == "AB1-23";
    ProjectWithDigitMatches();
    ExtractCanonicalizesCase(["AB1"], "AB1", "AB1", "23");
  }
}
