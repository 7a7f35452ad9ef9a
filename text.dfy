/**
 * String operations the handlers use: substring search (`includes`, Python's
 * `in`), the capture of a leftmost `prefix(class+)` regular-expression match,
 * `String.prototype.trim`, `replace` with a one-character string pattern, and
 * ASCII lower-casing.  A `char` is a whole code point, while JavaScript
 * strings count UTF-16 code units, so lengths agree only for text without
 * characters outside the Basic Multilingual Plane.
 */
module Text {
  import opened Wrappers

  predicate IsDigit(c: char) {
    '0' <= c <= '9'
  }

  /** The regular-expression class `\w`, i.e. `[A-Za-z0-9_]`. */
  predicate IsWordChar(c: char) {
    IsDigit(c) || 'a' <= c <= 'z' || 'A' <= c <= 'Z' || c == '_'
  }

  /** The character classes that appear in the handlers' patterns. */
  datatype CharClass =
    | Digits          // \d
    | WordChars       // [a-zA-Z0-9_]
    | WordOrDot       // [a-zA-Z0-9_.]
    | NotHashAmpQuery // [^#&?]

  predicate InClass(c: char, k: CharClass) {
    match k
    case Digits => IsDigit(c)
    case WordChars => IsWordChar(c)
    case WordOrDot => IsWordChar(c) || c == '.'
    case NotHashAmpQuery => c != '#' && c != '&' && c != '?'
  }

  predicate StartsAt(s: string, i: int, t: string) {
    0 <= i && i + |t| <= |s| && s[i..i + |t|] == t
  }

  /** `s.includes(t)`, Python's `t in s`. */
  predicate Contains(s: string, t: string) {
    exists i :: 0 <= i <= |s| - |t| && StartsAt(s, i, t)
  }

  /** Length of the maximal run of class-`k` characters starting at `i`. */
  function RunLength(s: string, i: nat, k: CharClass): (n: nat)
    requires i <= |s|
    ensures i + n <= |s|
    ensures forall j :: i <= j < i + n ==> InClass(s[j], k)
    ensures i + n == |s| || !InClass(s[i + n], k)
    decreases |s| - i
  {
    if i == |s| || !InClass(s[i], k) then 0 else 1 + RunLength(s, i + 1, k)
  }

  /** `cap` is the maximal run of class-`k` characters that starts at `q`. */
  ghost predicate IsMaximalRunAt(s: string, q: int, k: CharClass, cap: string) {
    && 0 <= q && q + |cap| <= |s|
    && s[q..q + |cap|] == cap
    && (forall j :: 0 <= j < |cap| ==> InClass(cap[j], k))
    && (q + |cap| == |s| || !InClass(s[q + |cap|], k))
  }

  lemma MaximalRunIsRunLength(s: string, q: nat, k: CharClass, cap: string)
    requires q <= |s| && IsMaximalRunAt(s, q, k, cap)
    ensures |cap| == RunLength(s, q, k)
  {
  }

  /** The pattern `prefix(k+)` matches at position `i`. */
  predicate PrefixedRunAt(s: string, i: int, prefix: string, k: CharClass) {
    StartsAt(s, i, prefix) && i + |prefix| < |s| && InClass(s[i + |prefix|], k)
  }

  /** The first position at or after `from` where `prefix(k+)` matches. */
  function FindPrefixedRun(s: string, from: nat, prefix: string, k: CharClass): (r: Option<nat>)
    requires from <= |s|
    ensures r.Some? ==> from <= r.value && PrefixedRunAt(s, r.value, prefix, k)
    ensures r.Some? ==> forall j :: from <= j < r.value ==> !PrefixedRunAt(s, j, prefix, k)
    ensures r.None? ==> forall j :: from <= j ==> !PrefixedRunAt(s, j, prefix, k)
    decreases |s| - from
  {
    if from == |s| then None
    else if PrefixedRunAt(s, from, prefix, k) then Some(from)
    else FindPrefixedRun(s, from + 1, prefix, k)
  }

  /**
   * Group 1 of `s.match(/prefix(k+)/)`: JavaScript tries the start positions
   * from left to right, and the greedy `+` takes the whole run.
   */
  function MatchCapture(s: string, prefix: string, k: CharClass): Option<string> {
    match FindPrefixedRun(s, 0, prefix, k)
    case None => None
    case Some(p) =>
      var q := p + |prefix|;
      Some(s[q..q + RunLength(s, q, k)])
  }

  /** `cap` is what the leftmost match of `prefix(k+)` in `s` captures. */
  ghost predicate IsLeftmostCapture(s: string, prefix: string, k: CharClass, cap: string) {
    exists p ::
      && 0 <= p
      && PrefixedRunAt(s, p, prefix, k)
      && (forall j :: 0 <= j < p ==> !PrefixedRunAt(s, j, prefix, k))
      && IsMaximalRunAt(s, p + |prefix|, k, cap)
  }

  /** MatchCapture finds nothing exactly when the pattern matches nowhere. */
  lemma MatchCaptureNone(s: string, prefix: string, k: CharClass)
    ensures MatchCapture(s, prefix, k).None? <==> forall j :: 0 <= j ==> !PrefixedRunAt(s, j, prefix, k)
  {
  }

  /** What MatchCapture returns is the leftmost capture: non-empty and of class `k`. */
  lemma {:induction false} MatchCaptureIsLeftmost(s: string, prefix: string, k: CharClass)
    requires MatchCapture(s, prefix, k).Some?
    ensures IsLeftmostCapture(s, prefix, k, MatchCapture(s, prefix, k).value)
    ensures |MatchCapture(s, prefix, k).value| >= 1
  {
    var p := FindPrefixedRun(s, 0, prefix, k).value;
    var q := p + |prefix|;
    var cap := s[q..q + RunLength(s, q, k)];
    assert InClass(s[q], k);
    assert IsMaximalRunAt(s, q, k, cap);
  }

  /** A match at `p` with none before it, from `from` on, is the one FindPrefixedRun finds. */
  lemma {:induction false} FindPrefixedRunFinds(s: string, from: nat, p: nat, prefix: string, k: CharClass)
    requires from <= p < |s| && PrefixedRunAt(s, p, prefix, k)
    requires forall j :: from <= j < p ==> !PrefixedRunAt(s, j, prefix, k)
    ensures FindPrefixedRun(s, from, prefix, k) == Some(p)
    decreases p - from
  {
    if from < p {
      FindPrefixedRunFinds(s, from + 1, p, prefix, k);
    }
  }

  /** Once the match is found at `p`, the capture is the maximal run after the prefix. */
  lemma CaptureAt(s: string, prefix: string, k: CharClass, cap: string, p: nat)
    requires FindPrefixedRun(s, 0, prefix, k) == Some(p)
    requires IsMaximalRunAt(s, p + |prefix|, k, cap)
    ensures MatchCapture(s, prefix, k) == Some(cap)
  {
    var q := p + |prefix|;
    MaximalRunIsRunLength(s, q, k, cap);
    assert cap == s[q..q + RunLength(s, q, k)];
  }

  /** The leftmost capture is unique, so it is what MatchCapture returns. */
  lemma LeftmostIsMatchCapture(s: string, prefix: string, k: CharClass, cap: string)
    requires IsLeftmostCapture(s, prefix, k, cap)
    ensures MatchCapture(s, prefix, k) == Some(cap)
  {
    var p :| && 0 <= p
              && PrefixedRunAt(s, p, prefix, k)
              && (forall j :: 0 <= j < p ==> !PrefixedRunAt(s, j, prefix, k))
              && IsMaximalRunAt(s, p + |prefix|, k, cap);
    FindPrefixedRunFinds(s, 0, p, prefix, k);
    CaptureAt(s, prefix, k, cap, p);
  }

  /** The whitespace `String.prototype.trim` removes: WhiteSpace and LineTerminator. */
  predicate IsJsWhitespace(c: char) {
    || c == '\t' || c == '\n' || c == '\U{000B}' || c == '\U{000C}' || c == '\r' || c == ' '
    || c == '\U{00A0}' || c == '\U{1680}' || ('\U{2000}' <= c <= '\U{200A}')
    || c == '\U{2028}' || c == '\U{2029}' || c == '\U{202F}' || c == '\U{205F}'
    || c == '\U{3000}' || c == '\U{FEFF}'
  }

  /** `s` with its leading whitespace removed. */
  function TrimStart(s: string): (r: string)
    ensures |r| <= |s| && r == s[|s| - |r|..]
    ensures forall i :: 0 <= i < |s| - |r| ==> IsJsWhitespace(s[i])
    ensures r == [] || !IsJsWhitespace(r[0])
  {
    if s != [] && IsJsWhitespace(s[0]) then TrimStart(s[1..]) else s
  }

  /** `s` with its trailing whitespace removed. */
  function TrimEnd(s: string): (r: string)
    ensures |r| <= |s| && r == s[..|r|]
    ensures forall i :: |r| <= i < |s| ==> IsJsWhitespace(s[i])
    ensures r == [] || !IsJsWhitespace(r[|r| - 1])
  {
    if s != [] && IsJsWhitespace(s[|s| - 1]) then TrimEnd(s[..|s| - 1]) else s
  }

  /** `r` is the slice of `s` at `i`, with only whitespace before and after it. */
  ghost predicate StrippedAt(s: string, i: int, r: string) {
    && 0 <= i && i + |r| <= |s| && r == s[i..i + |r|]
    && (forall j :: 0 <= j < i ==> IsJsWhitespace(s[j]))
    && (forall j :: i + |r| <= j < |s| ==> IsJsWhitespace(s[j]))
  }

  /**
   * `s.trim()`: the slice of `s` left once its leading and trailing
   * whitespace is removed, starting and ending with a non-whitespace
   * character.
   */
  function Trim(s: string): (r: string)
    ensures exists i :: StrippedAt(s, i, r)
    ensures r == [] || (!IsJsWhitespace(r[0]) && !IsJsWhitespace(r[|r| - 1]))
    ensures r == [] <==> forall i :: 0 <= i < |s| ==> IsJsWhitespace(s[i])
  {
    var t := TrimStart(s);
    TrimBothEnds(s, t, TrimEnd(t));
    TrimEnd(t)
  }

  lemma TrimBothEnds(s: string, t: string, r: string)
    requires t == TrimStart(s) && r == TrimEnd(t)
    ensures StrippedAt(s, |s| - |t|, r)
    ensures r == [] || (!IsJsWhitespace(r[0]) && !IsJsWhitespace(r[|r| - 1]))
  {
    PrefixOfSuffix(s, t, r);
    WhitespaceTail(s, t, |r|);
    TrimEndsKept(t, r);
  }

  /** A prefix `r` of a suffix `t` of `s` is a slice of `s`. */
  lemma PrefixOfSuffix(s: string, t: string, r: string)
    requires |t| <= |s| && t == s[|s| - |t|..]
    requires |r| <= |t| && r == t[..|r|]
    ensures r == s[|s| - |t|..|s| - |t| + |r|]
  {
    SliceOfSlice(s, |s| - |t|, |r|);
  }

  lemma TrimEndsKept(t: string, r: string)
    requires t == [] || !IsJsWhitespace(t[0])
    requires r == TrimEnd(t)
    ensures r == [] || (!IsJsWhitespace(r[0]) && !IsJsWhitespace(r[|r| - 1]))
  {
    if r != [] {
      assert r[0] == t[0];
    }
  }

  /** Whitespace at the end of a suffix `t` of `s` is whitespace at the end of `s`. */
  lemma WhitespaceTail(s: string, t: string, n: nat)
    requires |t| <= |s| && t == s[|s| - |t|..] && n <= |t|
    requires forall k :: n <= k < |t| ==> IsJsWhitespace(t[k])
    ensures forall j :: |s| - |t| + n <= j < |s| ==> IsJsWhitespace(s[j])
  {
    var i := |s| - |t|;
    forall j | i + n <= j < |s| ensures IsJsWhitespace(s[j]) {
      assert s[j] == t[j - i];
    }
  }

  lemma SliceOfSlice(s: string, i: nat, n: nat)
    requires i + n <= |s|
    ensures s[i..][..n] == s[i..i + n]
  {
  }

  /** The position of the first `c` in `s`. */
  function IndexOf(s: string, c: char): (i: nat)
    requires c in s
    ensures i < |s| && s[i] == c && c !in s[..i]
  {
    if s[0] == c then 0
    else
      var j := IndexOf(s[1..], c);
      assert s[..j + 1] == [s[0]] + s[1..][..j];
      j + 1
  }

  /**
   * `s.replace(c, "")` with a one-character string pattern: only the first
   * occurrence of `c` is removed.
   */
  function RemoveFirst(s: string, c: char): (r: string)
    ensures c !in s ==> r == s
    ensures c in s ==> exists i :: 0 <= i < |s| && s[i] == c && c !in s[..i] && r == s[..i] + s[i + 1..]
    ensures c in s ==> |r| == |s| - 1 && multiset(r) == multiset(s) - multiset{c}
  {
    if c in s then
      var i := IndexOf(s, c);
      assert s == s[..i] + [c] + s[i + 1..];
      s[..i] + s[i + 1..]
    else s
  }

  function LowerChar(c: char): char {
    if 'A' <= c <= 'Z' then (c as int + 32) as char else c
  }

  /** ASCII lower-casing. */
  function Lower(s: string): (r: string)
    ensures |r| == |s|
  {
    seq(|s|, i requires 0 <= i < |s| => LowerChar(s[i]))
  }
}
