/** Small value types and sequence/string helpers shared by every module:
    optional values, results that carry a thrown error's message, JavaScript
    truthiness of optional strings, order-preserving filtering and
    first-occurrence de-duplication (the `Array.from(new Set(xs))` idiom). */
module Common {

  datatype Option<T> = None | Some(value: T)

  /** The outcome of a call that may throw: `Err` carries the error's message. */
  datatype Result<T> = Ok(value: T) | Err(msg: string)

  /** A thrown value as `error instanceof Error` sees it: an `Error` with its
      message, or anything else. */
  datatype Thrown = JsError(message: string) | NonErrorThrown

  /** A JavaScript `string | undefined` is truthy iff it is defined and non-empty. */
  predicate Truthy(o: Option<string>) {
    o.Some? && o.value != ""
  }

  /** `o || fallback` for an optional string. */
  function OrElse(o: Option<string>, fallback: string): (r: string)
    ensures Truthy(o) ==> r == o.value
    ensures !Truthy(o) ==> r == fallback
  {
    if Truthy(o) then o.value else fallback
  }

  /** How a template literal renders `string | undefined`. */
  function Render(o: Option<string>): string {
    match o
    case Some(s) => s
    case None => "undefined"
  }

  // ---------------------------------------------------------------------------
  // Subsequences and filtering

  /** `a` can be obtained from `b` by deleting elements. */
  predicate IsSubseq<T(==)>(a: seq<T>, b: seq<T>)
    decreases |b|
  {
    |a| == 0 || (|b| > 0 && ((a[0] == b[0] && IsSubseq(a[1..], b[1..])) || IsSubseq(a, b[1..])))
  }

  lemma {:induction false} SubseqRefl<T>(s: seq<T>)
    ensures IsSubseq(s, s)
    decreases |s|
  {
    if |s| > 0 {
      SubseqRefl(s[1..]);
    }
  }

  lemma {:induction false} SubseqMembers<T>(a: seq<T>, b: seq<T>)
    requires IsSubseq(a, b)
    ensures forall x :: x in a ==> x in b
    ensures |a| <= |b|
    decreases |b|
  {
    if |a| > 0 {
      if a[0] == b[0] && IsSubseq(a[1..], b[1..]) {
        SubseqMembers(a[1..], b[1..]);
        assert forall x :: x in a ==> x == a[0] || x in a[1..];
      } else {
        SubseqMembers(a, b[1..]);
      }
    }
  }

  /** A subsequence holds each element at most as often as the whole. */
  lemma {:induction false} SubseqMultiset<T>(a: seq<T>, b: seq<T>)
    requires IsSubseq(a, b)
    ensures multiset(a) <= multiset(b)
    decreases |b|
  {
    if |a| > 0 {
      assert b == [b[0]] + b[1..];
      if a[0] == b[0] && IsSubseq(a[1..], b[1..]) {
        SubseqMultiset(a[1..], b[1..]);
        assert a == [a[0]] + a[1..];
      } else {
        SubseqMultiset(a, b[1..]);
      }
    }
  }

  /** `Array.prototype.filter`: keeps exactly the elements satisfying `keep`,
      each as often as it occurs, in their original order. */
  function Filter<T(==,!new)>(s: seq<T>, keep: T -> bool): (r: seq<T>)
    ensures IsSubseq(r, s)
    ensures forall x :: multiset(r)[x] == if keep(x) then multiset(s)[x] else 0
    ensures forall x :: x in r <==> x in s && keep(x)
    ensures |r| <= |s|
    ensures (forall i :: 0 <= i < |s| ==> keep(s[i])) ==> r == s
    decreases |s|
  {
    if |s| == 0 then []
    else
      var rest := Filter(s[1..], keep);
      assert s == [s[0]] + s[1..];
      assert forall x :: x in s <==> x == s[0] || x in s[1..];
      if keep(s[0]) then [s[0]] + rest else rest
  }

  lemma FilterCons<T(!new)>(x: T, rest: seq<T>, keep: T -> bool)
    ensures Filter([x] + rest, keep) == (if keep(x) then [x] else []) + Filter(rest, keep)
  {
    assert ([x] + rest)[1..] == rest;
  }

  /** The filter's contract pins its result: the only subsequence of `s`
      holding every kept element as often as `s` does, and nothing else, is
      `Filter(s, keep)`. */
  lemma {:induction false} FilterIsDetermined<T(!new)>(s: seq<T>, keep: T -> bool, r: seq<T>)
    requires IsSubseq(r, s)
    requires forall x :: multiset(r)[x] == if keep(x) then multiset(s)[x] else 0
    ensures r == Filter(s, keep)
    decreases |s|
  {
    if |s| > 0 {
      var x0 := s[0];
      assert s == [x0] + s[1..];
      if |r| > 0 && r[0] == x0 && IsSubseq(r[1..], s[1..]) {
        assert r == [x0] + r[1..];
        assert keep(x0) by {
          assert multiset(r)[x0] > 0;
        }
        FilterIsDetermined(s[1..], keep, r[1..]);
      } else if |r| > 0 {
        assert IsSubseq(r, s[1..]);
        SubseqMultiset(r, s[1..]);
        assert !keep(x0) by {
          assert multiset(s)[x0] == multiset(s[1..])[x0] + 1;
        }
        FilterIsDetermined(s[1..], keep, r);
      } else {
        assert !keep(x0) by {
          assert multiset(r)[x0] == 0;
        }
        FilterIsDetermined(s[1..], keep, r);
      }
    }
  }

  /** `Array.prototype.map`. */
  function Map<T, U>(s: seq<T>, f: T -> U): (r: seq<U>)
    ensures |r| == |s|
    ensures forall i :: 0 <= i < |s| ==> r[i] == f(s[i])
  {
    seq(|s|, i requires 0 <= i < |s| => f(s[i]))
  }

  /** `Array.prototype.flatMap`: the lists `f` gives, one after the other. */
  function FlatMap<T, U(!new)>(s: seq<T>, f: T -> seq<U>): (r: seq<U>)
    ensures forall y :: y in r <==> exists i :: 0 <= i < |s| && y in f(s[i])
    decreases |s|
  {
    if |s| == 0 then []
    else
      var rest := FlatMap(s[1..], f);
      assert forall i :: 1 <= i < |s| ==> s[i] == s[1..][i - 1];
      f(s[0]) + rest
  }

  /** The flattened list is empty exactly when every list `f` gives is. */
  lemma {:induction false} FlatMapEmpty<T, U(!new)>(s: seq<T>, f: T -> seq<U>)
    ensures FlatMap(s, f) == [] <==> forall i :: 0 <= i < |s| ==> f(s[i]) == []
    decreases |s|
  {
    if |s| > 0 {
      FlatMapEmpty(s[1..], f);
      assert forall i :: 1 <= i < |s| ==> s[i] == s[1..][i - 1];
    }
  }

  lemma MapMembers<T, U>(s: seq<T>, f: T -> U)
    ensures forall y :: y in Map(s, f) <==> exists x :: x in s && y == f(x)
  {
    var r := Map(s, f);
    forall y ensures y in r <==> exists x :: x in s && y == f(x) {
      if y in r {
        var i :| 0 <= i < |r| && r[i] == y;
        assert s[i] in s;
      }
      if exists x :: x in s && y == f(x) {
        var x :| x in s && y == f(x);
        var i :| 0 <= i < |s| && s[i] == x;
        assert r[i] == y;
      }
    }
  }

  // ---------------------------------------------------------------------------
  // De-duplication in first-occurrence order

  predicate Distinct<T(==)>(s: seq<T>) {
    forall i, j :: 0 <= i < j < |s| ==> s[i] != s[j]
  }

  lemma DedupOfEmpty<T(!new)>(s: seq<T>)
    ensures Dedup(s) == [] <==> s == []
  {
    if s != [] {
      assert s[0] in Dedup(s);
    }
  }

  /** The images of `s` under `f`, each once, in the order of the first
      element that yields them. */
  function DistinctImages<T, U(==,!new)>(s: seq<T>, f: T -> U): (r: seq<U>)
    ensures Distinct(r)
    ensures forall y :: y in r <==> exists x :: x in s && y == f(x)
    ensures forall y :: y in r <==> y in Map(s, f)
    ensures forall i, j :: 0 <= i < j < |r| ==> FirstIndexOf(Map(s, f), r[i]) < FirstIndexOf(Map(s, f), r[j])
    ensures |s| == 0 ==> r == []
  {
    MapMembers(s, f);
    DedupKeepsFirstOccurrenceOrder(Map(s, f));
    Dedup(Map(s, f))
  }

  /** The position of the first occurrence of `x` in `s`. */
  function FirstIndexOf<T(==)>(s: seq<T>, x: T): (k: nat)
    requires x in s
    ensures k < |s| && s[k] == x
    ensures forall j :: 0 <= j < k ==> s[j] != x
  {
    if s[0] == x then 0
    else
      var k := FirstIndexOf(s[1..], x);
      assert forall j :: 1 <= j <= k ==> s[j] == s[1..][j - 1];
      k + 1
  }

  /** Appending never moves the first occurrence of an element already
      present. */
  lemma FirstIndexOfPrefix<T>(p: seq<T>, t: seq<T>, x: T)
    requires x in p
    ensures FirstIndexOf(p + t, x) == FirstIndexOf(p, x)
  {
    var k := FirstIndexOf(p, x);
    var k2 := FirstIndexOf(p + t, x);
    assert (p + t)[k] == x;
    assert k2 <= k;
    assert p[k2] == (p + t)[k2];
  }

  /** `Array.from(new Set(s))`: a `Set` keeps insertion order, and inserting an
      element already present changes nothing. */
  function Dedup<T(==,!new)>(s: seq<T>): (r: seq<T>)
    ensures Distinct(r)
    ensures forall x :: x in r <==> x in s
    ensures |r| <= |s|
    decreases |s|
  {
    if |s| == 0 then []
    else
      var r0 := Dedup(s[..|s| - 1]);
      var x := s[|s| - 1];
      assert forall y :: y in s <==> y in s[..|s| - 1] || y == x;
      if x in r0 then r0 else r0 + [x]
  }

  /** De-duplicating a list that has no duplicates returns it unchanged. */
  lemma {:induction false} DedupOfDistinct<T(!new)>(s: seq<T>)
    requires Distinct(s)
    ensures Dedup(s) == s
    decreases |s|
  {
    if |s| > 0 {
      var p := s[..|s| - 1];
      assert Distinct(p);
      DedupOfDistinct(p);
      assert s[|s| - 1] !in p;
      assert p + [s[|s| - 1]] == s;
    }
  }

  /** A `Set` lists its elements in insertion order: of two elements of the
      de-duplicated list, the earlier one occurs first in `s`. */
  lemma {:induction false} DedupKeepsFirstOccurrenceOrder<T(!new)>(s: seq<T>)
    ensures forall i, j :: 0 <= i < j < |Dedup(s)| ==> FirstIndexOf(s, Dedup(s)[i]) < FirstIndexOf(s, Dedup(s)[j])
    decreases |s|
  {
    if |s| > 0 {
      var p := s[..|s| - 1];
      var x := s[|s| - 1];
      var r0 := Dedup(p);
      assert s == p + [x];
      DedupKeepsFirstOccurrenceOrder(p);
      forall y | y in r0
        ensures FirstIndexOf(s, y) == FirstIndexOf(p, y) < |p|
      {
        FirstIndexOfPrefix(p, [x], y);
      }
      if x !in r0 {
        assert FirstIndexOf(s, x) == |p| by {
          assert x !in p;
        }
        assert Dedup(s) == r0 + [x];
      }
    }
  }

  /** Later elements never disturb the order fixed by earlier ones: the
      de-duplicated prefix is a prefix of the de-duplicated whole. */
  lemma {:induction false} DedupPrefix<T(!new)>(s: seq<T>, t: seq<T>)
    ensures Dedup(s) <= Dedup(s + t)
    decreases |t|
  {
    if |t| == 0 {
      assert s + t == s;
    } else {
      var t0 := t[..|t| - 1];
      DedupPrefix(s, t0);
      assert (s + t)[..|s + t| - 1] == s + t0;
    }
  }

  // ---------------------------------------------------------------------------
  // Strings

  /** `xs.join(sep)`. */
  function Join(xs: seq<string>, sep: string): (r: string)
    ensures |xs| == 1 ==> r == xs[0]
    ensures |xs| == 0 ==> r == ""
  {
    if |xs| == 0 then []
    else if |xs| == 1 then xs[0]
    else xs[0] + sep + Join(xs[1..], sep)
  }

  /** `sub` occurs in `s` at position `i`. */
  predicate OccursAt(s: string, sub: string, i: int) {
    0 <= i <= |s| - |sub| && s[i..i + |sub|] == sub
  }

  /** `s.includes(sub)`. */
  predicate Contains(s: string, sub: string) {
    exists i | 0 <= i <= |s| - |sub| :: OccursAt(s, sub, i)
  }

  /** The characters JavaScript's `\s` and `String.prototype.trim` treat as
      white space (WhiteSpace and LineTerminator of ECMA-262). */
  predicate IsJsSpace(c: char) {
    c == ' ' || c == '\t' || c == '\n' || c == '\r' || c == '\U{000B}' || c == '\U{000C}'
    || c == '\U{00A0}' || c == '\U{1680}' || ('\U{2000}' <= c <= '\U{200A}')
    || c == '\U{2028}' || c == '\U{2029}' || c == '\U{202F}' || c == '\U{205F}'
    || c == '\U{3000}' || c == '\U{FEFF}'
  }

  predicate AllSpace(s: string) {
    forall i :: 0 <= i < |s| ==> IsJsSpace(s[i])
  }

  function TrimStart(s: string): (r: string)
    ensures |r| <= |s| && r == s[|s| - |r|..]
    ensures |r| > 0 ==> !IsJsSpace(r[0])
    ensures AllSpace(s[..|s| - |r|])
    decreases |s|
  {
    if |s| > 0 && IsJsSpace(s[0]) then
      var r := TrimStart(s[1..]);
      assert s[..|s| - |r|] == [s[0]] + s[1..][..|s[1..]| - |r|];
      r
    else s
  }

  function TrimEnd(s: string): (r: string)
    ensures |r| <= |s| && r == s[..|r|]
    ensures |r| > 0 ==> !IsJsSpace(r[|r| - 1])
    ensures AllSpace(s[|r|..])
    decreases |s|
  {
    if |s| > 0 && IsJsSpace(s[|s| - 1]) then
      var r := TrimEnd(s[..|s| - 1]);
      assert s[|r|..] == s[..|s| - 1][|r|..] + [s[|s| - 1]];
      r
    else s
  }

  /** `r` sits in `s` at offset `k` with only white space around it. */
  predicate SpacePadded(r: string, s: string, k: int) {
    0 <= k <= |s| - |r| && s[k..k + |r|] == r && AllSpace(s[..k]) && AllSpace(s[k + |r|..])
  }

  /** `String.prototype.trim`: the infix left after removing white space at both
      ends; it neither starts nor ends with white space. */
  function Trim(s: string): (r: string)
    ensures |r| > 0 ==> !IsJsSpace(r[0]) && !IsJsSpace(r[|r| - 1])
    ensures exists k :: SpacePadded(r, s, k)
  {
    var a := TrimStart(s);
    var r := TrimEnd(a);
    var k := |s| - |a|;
    assert s[k + |r|..] == a[|r|..];
    assert SpacePadded(r, s, k);
    r
  }

  /** The text is its trimmed infix between two stretches of white space. */
  lemma TrimSplits(s: string) returns (front: string, back: string)
    ensures AllSpace(front) && AllSpace(back) && s == front + (Trim(s) + back)
  {
    var a := TrimStart(s);
    var r := TrimEnd(a);
    front, back := s[..|s| - |a|], a[|r|..];
    assert a == r + back;
    assert s == front + a;
  }

  predicate IsAsciiDigit(c: char) { '0' <= c <= '9' }
  predicate IsAsciiUpper(c: char) { 'A' <= c <= 'Z' }
  predicate IsAsciiLower(c: char) { 'a' <= c <= 'z' }

  function UpperChar(c: char): (u: char)
    ensures IsAsciiLower(c) ==> IsAsciiUpper(u)
    ensures !IsAsciiLower(c) ==> u == c
  {
    if IsAsciiLower(c) then (c as int - 32) as char else c
  }

  /** `toUpperCase` restricted to ASCII letters. */
  function ToUpperAscii(s: string): (r: string)
    ensures |r| == |s|
    ensures forall i :: 0 <= i < |s| ==> r[i] == UpperChar(s[i])
  {
    seq(|s|, i requires 0 <= i < |s| => UpperChar(s[i]))
  }

  /** Equality up to ASCII case, the `i` flag of a non-Unicode regular expression
      on ASCII text. */
  predicate CaseInsensitiveEq(a: string, b: string) {
    |a| == |b| && forall i :: 0 <= i < |a| ==> UpperChar(a[i]) == UpperChar(b[i])
  }

  /** `s.split(sep)` for a single-character separator: every field, empty ones
      included. */
  function SplitOnChar(s: string, sep: char): (r: seq<string>)
    ensures |r| >= 1
    ensures forall i :: 0 <= i < |r| ==> sep !in r[i]
    decreases |s|
  {
    if |s| == 0 then [""]
    else
      var rest := SplitOnChar(s[1..], sep);
      if s[0] == sep then [""] + rest else [[s[0]] + rest[0]] + rest[1..]
  }

  /** A text without the separator is a single field. */
  lemma {:induction false} SplitWithoutSeparator(b: string, sep: char)
    requires sep !in b
    ensures SplitOnChar(b, sep) == [b]
    decreases |b|
  {
    if |b| > 0 {
      SplitWithoutSeparator(b[1..], sep);
      assert [b[0]] + b[1..] == b;
    }
  }

  /** Splitting at the first separator: the part before it is the first
      field, and the fields of the rest follow. */
  lemma {:induction false} SplitAtFirstSeparator(a: string, sep: char, rest: string)
    requires sep !in a
    ensures SplitOnChar(a + [sep] + rest, sep) == [a] + SplitOnChar(rest, sep)
    decreases |a|
  {
    if |a| == 0 {
      assert a + [sep] + rest == [sep] + rest;
      assert (a + [sep] + rest)[1..] == rest;
    } else {
      SplitAtFirstSeparator(a[1..], sep, rest);
      assert (a + [sep] + rest)[1..] == a[1..] + [sep] + rest;
      assert [a[0]] + a[1..] == a;
    }
  }
}
