/**
 * The text side of the ID verifier: `validate_id_details`, which looks for
 * the card keywords in the OCR text and masks long digit runs, and the two
 * report fields `verify_user` derives from it.
 */
module IdVerification {
  import opened Text

  const Keywords: seq<string> := ["Name", "DOB", "Date of Birth", "No", "ID", "REPUBLIC", "GOVERNMENT"]
  const Mask := "********"

  /** `word.lower() in text.lower()`. */
  predicate Mentions(text: string, word: string) {
    Contains(Lower(text), Lower(word))
  }

  /** `a` is `b` with some elements left out, the rest kept in order. */
  ghost predicate IsSubsequence<T>(a: seq<T>, b: seq<T>)
    decreases |b|
  {
    a == [] || (b != [] && ((a[0] == b[0] && IsSubsequence(a[1..], b[1..])) || IsSubsequence(a, b[1..])))
  }

  ghost predicate Distinct<T>(s: seq<T>) {
    forall i, j :: 0 <= i < j < |s| ==> s[i] != s[j]
  }

  /** `[word for word in words if word.lower() in text.lower()]`. */
  function FoundKeywords(words: seq<string>, text: string): (r: seq<string>)
    ensures forall w :: w in r <==> w in words && Mentions(text, w)
    ensures IsSubsequence(r, words)
    ensures Distinct(words) ==> Distinct(r)
  {
    if words == [] then []
    else
      var rest := FoundKeywords(words[1..], text);
      if Mentions(text, words[0]) then
        assert Distinct(words) ==> words[0] !in words[1..];
        [words[0]] + rest
      else rest
  }

  /**
   * `re.sub(r'\d{8,}', '********', s)` as the regular-expression engine runs
   * it: at each position it tries a greedy `\d{8,}`; where that fails it
   * copies one character and moves on.
   */
  function ReSub(s: string): string
    decreases |s|
  {
    if s == [] then []
    else
      var n := RunLength(s, 0, Digits);
      if n >= 8 then Mask + ReSub(s[n..]) else [s[0]] + ReSub(s[1..])
  }

  /** The first piece masking treats as one unit: a whole digit run, or one other character. */
  function Cut(s: string): (n: nat)
    requires s != []
    ensures 1 <= n <= |s|
  {
    if IsDigit(s[0]) then RunLength(s, 0, Digits) else 1
  }

  /** What that piece becomes: the mask for a run of 8 or more digits, itself otherwise. */
  function Piece(s: string): string
    requires s != []
  {
    if IsDigit(s[0]) && Cut(s) >= 8 then Mask else s[..Cut(s)]
  }

  /** The masking the comment in the source describes: each maximal digit run of 8 or more becomes the mask. */
  function MaskRuns(s: string): string
    decreases |s|
  {
    if s == [] then [] else Piece(s) + MaskRuns(s[Cut(s)..])
  }

  /** RunLength is determined by the three facts its contract states. */
  lemma RunLengthIs(s: string, i: nat, k: CharClass, n: nat)
    requires i + n <= |s|
    requires forall j :: i <= j < i + n ==> InClass(s[j], k)
    requires i + n == |s| || !InClass(s[i + n], k)
    ensures RunLength(s, i, k) == n
  {
  }

  lemma RunLengthDrop(s: string, d: nat, i: nat, k: CharClass)
    requires d + i <= |s|
    ensures RunLength(s[d..], i, k) == RunLength(s, d + i, k)
  {
    var n := RunLength(s, d + i, k);
    assert forall j :: i <= j < i + n ==> s[d..][j] == s[d + j];
    RunLengthIs(s[d..], i, k, n);
  }

  lemma RunLengthConcatLeft(a: string, b: string, i: nat, k: CharClass)
    requires i <= |a|
    ensures RunLength(a + b, i, k) ==
      if RunLength(a, i, k) == |a| - i then |a| - i + RunLength(b, 0, k) else RunLength(a, i, k)
  {
    var m := RunLength(a, i, k);
    if m == |a| - i {
      var nb := RunLength(b, 0, k);
      assert forall j :: i <= j < |a| + nb ==> (a + b)[j] == if j < |a| then a[j] else b[j - |a|];
      RunLengthIs(a + b, i, k, |a| - i + nb);
    } else {
      assert forall j :: i <= j <= i + m ==> (a + b)[j] == a[j];
      RunLengthIs(a + b, i, k, m);
    }
  }

  lemma RunLengthConcatRight(a: string, b: string, j: nat, k: CharClass)
    requires j <= |b|
    ensures RunLength(a + b, |a| + j, k) == RunLength(b, j, k)
  {
    assert (a + b)[|a|..] == b;
    RunLengthDrop(a + b, |a|, j, k);
  }

  /** The engine copies a short digit run one character at a time. */
  lemma {:induction false} ShortRunCopied(s: string, m: nat)
    requires m <= RunLength(s, 0, Digits) < 8
    ensures ReSub(s) == s[..m] + ReSub(s[m..])
    decreases m
  {
    if m > 0 {
      RunLengthDrop(s, 1, 0, Digits);
      ShortRunCopied(s[1..], m - 1);
      assert s[1..][m - 1..] == s[m..];
      assert [s[0]] + s[1..][..m - 1] == s[..m];
    }
  }

  /** The engine's scan and the maximal-run description agree on every text. */
  lemma {:induction false} ReSubIsMaskRuns(s: string)
    ensures ReSub(s) == MaskRuns(s)
    decreases |s|
  {
    if s != [] {
      var n := RunLength(s, 0, Digits);
      if !IsDigit(s[0]) {
        ReSubIsMaskRuns(s[1..]);
      } else if n >= 8 {
        ReSubIsMaskRuns(s[n..]);
      } else {
        ShortRunCopied(s, n);
        ReSubIsMaskRuns(s[n..]);
      }
    }
  }

  /** Eight digits in a row start at `i`. */
  ghost predicate EightDigitsAt(t: string, i: int) {
    0 <= i && i + 8 <= |t| && forall j :: i <= j < i + 8 ==> IsDigit(t[j])
  }

  /** No run of 8 or more digits starts anywhere in `t`. */
  ghost predicate NoLongRun(t: string) {
    forall i :: 0 <= i <= |t| ==> RunLength(t, i, Digits) < 8
  }

  lemma EightDigitsIsLongRun(t: string, i: nat)
    requires i <= |t|
    ensures EightDigitsAt(t, i) <==> RunLength(t, i, Digits) >= 8
  {
  }

  /** NoLongRun says what it should: eight digits in a row appear nowhere. */
  lemma NoLongRunMeansNoEightDigits(t: string)
    ensures NoLongRun(t) <==> forall i :: !EightDigitsAt(t, i)
  {
    forall i | 0 <= i <= |t| {
      EightDigitsIsLongRun(t, i);
    }
  }

  lemma MaskRunsHead(s: string)
    requires s != [] && !IsDigit(s[0])
    ensures MaskRuns(s) != [] && MaskRuns(s)[0] == s[0]
  {
  }

  /** Gluing a piece without a long run in front of a masked rest, where the digits cannot join up. */
  lemma GlueNoLongRun(x: string, m: string)
    requires NoLongRun(m)
    requires forall i :: 0 <= i < |x| ==> RunLength(x, i, Digits) == |x| - i ==> |x| - i + RunLength(m, 0, Digits) < 8
    requires forall i :: 0 <= i < |x| ==> RunLength(x, i, Digits) < 8
    ensures NoLongRun(x + m)
  {
    forall i | 0 <= i <= |x + m| ensures RunLength(x + m, i, Digits) < 8 {
      if i <= |x| {
        RunLengthConcatLeft(x, m, i, Digits);
      } else {
        RunLengthConcatRight(x, m, i - |x|, Digits);
      }
    }
  }

  /** After masking, no run of 8 or more digits is left. */
  lemma {:induction false} MaskedHasNoLongRun(s: string)
    ensures NoLongRun(MaskRuns(s))
    decreases |s|
  {
    if s == [] {
      assert RunLength([], 0, Digits) == 0;
    } else if !IsDigit(s[0]) {
      MaskedHasNoLongRun(s[1..]);
      var x := [s[0]];
      assert Piece(s) == x;
      assert RunLength(x, 0, Digits) == 0;
      GlueNoLongRun(x, MaskRuns(s[1..]));
    } else {
      var n := RunLength(s, 0, Digits);
      var m := MaskRuns(s[n..]);
      MaskedHasNoLongRun(s[n..]);
      if n >= 8 {
        forall i | 0 <= i < |Mask| ensures RunLength(Mask, i, Digits) == 0 { }
        GlueNoLongRun(Mask, m);
      } else {
        var x := s[..n];
        if s[n..] != [] {
          MaskRunsHead(s[n..]);
        }
        assert RunLength(m, 0, Digits) == 0;
        forall i | 0 <= i < |x| ensures RunLength(x, i, Digits) == n - i {
          RunLengthIs(x, i, Digits, n - i);
        }
        GlueNoLongRun(x, m);
      }
    }
  }

  /** Text without a long digit run comes back unchanged. */
  lemma {:induction false} NoLongRunUnchanged(t: string)
    requires NoLongRun(t)
    ensures MaskRuns(t) == t
    decreases |t|
  {
    if t != [] {
      var d := Cut(t);
      forall i | 0 <= i <= |t[d..]| ensures RunLength(t[d..], i, Digits) < 8 {
        RunLengthDrop(t, d, i, Digits);
      }
      NoLongRunUnchanged(t[d..]);
      assert t[..d] + t[d..] == t;
    }
  }

  /** Masking twice is masking once. */
  lemma MaskIdempotent(s: string)
    ensures MaskRuns(MaskRuns(s)) == MaskRuns(s)
  {
    MaskedHasNoLongRun(s);
    NoLongRunUnchanged(MaskRuns(s));
  }

  /** The first piece does not change when text that cannot extend its run is appended. */
  lemma CutConcat(a: string, b: string)
    requires a != [] && (b == [] || !IsDigit(a[|a| - 1]) || !IsDigit(b[0]))
    ensures Cut(a + b) == Cut(a) && Piece(a + b) == Piece(a)
    ensures (a + b)[Cut(a)..] == a[Cut(a)..] + b
  {
    assert (a + b)[0] == a[0];
    if IsDigit(a[0]) {
      RunLengthConcatLeft(a, b, 0, Digits);
      if RunLength(a, 0, Digits) == |a| {
        assert IsDigit(a[|a| - 1]);
        assert b == [] || RunLength(b, 0, Digits) == 0;
      }
    }
    assert (a + b)[..Cut(a)] == a[..Cut(a)];
  }

  /** The cut may be made wherever no digit run crosses it. */
  ghost predicate CleanCut(a: string, b: string) {
    a == [] || b == [] || !IsDigit(a[|a| - 1]) || !IsDigit(b[0])
  }

  lemma AppendStep(a: string, b: string)
    requires a != [] && CleanCut(a, b)
    ensures MaskRuns(a + b) == Piece(a) + MaskRuns(a[Cut(a)..] + b)
    ensures CleanCut(a[Cut(a)..], b)
  {
    CutConcat(a, b);
    var rest := a[Cut(a)..];
    assert rest != [] ==> rest[|rest| - 1] == a[|a| - 1];
  }

  lemma MaskRunsUnfold(a: string)
    requires a != []
    ensures MaskRuns(a) == Piece(a) + MaskRuns(a[Cut(a)..])
  {
  }

  lemma Assoc(p: string, x: string, y: string)
    ensures p + (x + y) == (p + x) + y
  {
  }

  lemma AppendInner(a: string, b: string)
    requires a != [] && CleanCut(a, b)
    requires MaskRuns(a[Cut(a)..] + b) == MaskRuns(a[Cut(a)..]) + MaskRuns(b)
    ensures MaskRuns(a + b) == MaskRuns(a) + MaskRuns(b)
  {
    AppendStep(a, b);
    MaskRunsUnfold(a);
    Assoc(Piece(a), MaskRuns(a[Cut(a)..]), MaskRuns(b));
  }

  /** Masking works run by run: it splits wherever a digit run cannot continue across the cut. */
  lemma {:induction false} MaskRunsAppend(a: string, b: string)
    requires CleanCut(a, b)
    ensures MaskRuns(a + b) == MaskRuns(a) + MaskRuns(b)
    decreases |a|
  {
    if a == [] {
      assert a + b == b;
    } else {
      AppendStep(a, b);
      MaskRunsAppend(a[Cut(a)..], b);
      AppendInner(a, b);
    }
  }

  lemma WholePiece(s: string)
    requires s != [] && Cut(s) == |s|
    ensures MaskRuns(s) == Piece(s)
  {
    assert s[|s|..] == [];
  }

  lemma DigitsCut(d: string)
    requires d != [] && forall i :: 0 <= i < |d| ==> IsDigit(d[i])
    ensures IsDigit(d[0]) && Cut(d) == |d|
  {
    assert RunLength(d, 0, Digits) == |d| by {
      RunLengthIs(d, 0, Digits, |d|);
    }
  }

  lemma WholeDigitPiece(d: string)
    requires d != [] && IsDigit(d[0]) && Cut(d) == |d|
    ensures MaskRuns(d) == if |d| >= 8 then Mask else d
  {
    WholePiece(d);
    assert d[..|d|] == d;
  }

  /** A maximal run of 8 or more digits becomes exactly the mask; the text around it is masked on its own. */
  lemma LongRunMasked(a: string, d: string, b: string)
    requires |d| >= 8 && forall i :: 0 <= i < |d| ==> IsDigit(d[i])
    requires a == [] || !IsDigit(a[|a| - 1])
    requires b == [] || !IsDigit(b[0])
    ensures MaskRuns(a + d + b) == MaskRuns(a) + Mask + MaskRuns(b)
  {
    DigitsCut(d);
    WholeDigitPiece(d);
    Assoc(a, d, b);
    MaskRunsAppend(a, d + b);
    MaskRunsAppend(d, b);
    Assoc(MaskRuns(a), Mask, MaskRuns(b));
  }

  /** A maximal run of at most 7 digits is kept as it is. */
  lemma ShortRunKept(a: string, d: string, b: string)
    requires 1 <= |d| < 8 && forall i :: 0 <= i < |d| ==> IsDigit(d[i])
    requires a == [] || !IsDigit(a[|a| - 1])
    requires b == [] || !IsDigit(b[0])
    ensures MaskRuns(a + d + b) == MaskRuns(a) + d + MaskRuns(b)
  {
    DigitsCut(d);
    WholeDigitPiece(d);
    Assoc(a, d, b);
    MaskRunsAppend(a, d + b);
    MaskRunsAppend(d, b);
    Assoc(MaskRuns(a), d, MaskRuns(b));
  }

  /** A character that is not a digit is kept. */
  lemma NonDigitKept(a: string, c: char, b: string)
    requires !IsDigit(c)
    ensures MaskRuns(a + [c] + b) == MaskRuns(a) + [c] + MaskRuns(b)
  {
    Assoc(a, [c], b);
    MaskRunsAppend(a, [c] + b);
    assert ([c] + b)[1..] == b;
    assert MaskRuns([c] + b) == [c] + MaskRuns(b);
    Assoc(MaskRuns(a), [c], MaskRuns(b));
  }

  lemma MaskRunsEmpty(s: string)
    ensures MaskRuns(s) == [] <==> s == []
  {
  }

  /** The dictionary `validate_id_details` returns. */
  datatype IdDetails = IdDetails(validStructure: bool, foundKeywords: seq<string>, cleanedText: string)

  function ValidateIdDetails(text: string): IdDetails {
    if text == "" then IdDetails(false, [], "")
    else
      var found := FoundKeywords(Keywords, text);
      IdDetails(|found| > 0, found, ReSub(text))
  }

  lemma KeywordsDistinct()
    ensures Distinct(Keywords)
  {
  }

  /** No keyword is empty, so empty text mentions none. */
  lemma EmptyTextMentionsNone()
    ensures forall w :: w in Keywords ==> !Mentions("", w)
  {
    forall w | w in Keywords ensures !Mentions("", w) {
      assert |Lower(w)| == |w| > 0;
    }
  }

  /**
   * The keywords found are exactly those the lower-cased text contains, in
   * list order and each once, and the structure counts as valid iff one was
   * found; empty text is the fixed empty answer.
   */
  lemma KeywordsSpec(text: string)
    ensures text == "" ==> ValidateIdDetails(text) == IdDetails(false, [], "")
    ensures var d := ValidateIdDetails(text);
      && (forall w :: w in d.foundKeywords <==> w in Keywords && Mentions(text, w))
      && IsSubsequence(d.foundKeywords, Keywords)
      && Distinct(d.foundKeywords)
      && (d.validStructure <==> d.foundKeywords != [])
      && (d.validStructure <==> exists w :: w in Keywords && Mentions(text, w))
  {
    KeywordsDistinct();
    if text == "" {
      EmptyTextMentionsNone();
      assert IsSubsequence<string>([], Keywords);
    } else {
      var found := FoundKeywords(Keywords, text);
      if found != [] {
        assert found[0] in found;
      }
    }
  }

  /** The cleaned text is the masked text: empty only for empty text, and with no run of 8 digits left. */
  lemma CleanedTextSpec(text: string)
    ensures var d := ValidateIdDetails(text);
      && d.cleanedText == MaskRuns(text)
      && (d.cleanedText == "" <==> text == "")
      && NoLongRun(d.cleanedText)
  {
    ReSubIsMaskRuns(text);
    MaskedHasNoLongRun(text);
    MaskRunsEmpty(text);
  }

  /** The text fields of the dictionary `verify_user` returns. */
  datatype TextReport = TextReport(ocrTextFound: bool, ocrKeywords: seq<string>, maskedTextSample: string)

  function Min(a: int, b: int): int {
    if a <= b then a else b
  }

  /** `cleaned[:100] + "..." if cleaned else ""`. */
  function Sample(cleaned: string): (r: string)
    ensures cleaned == "" ==> r == ""
    ensures cleaned != "" ==> |r| == Min(100, |cleaned|) + 3 && r == cleaned[..|r| - 3] + "..."
  {
    if cleaned == "" then "" else cleaned[..Min(100, |cleaned|)] + "..."
  }

  function ReportText(rawText: string): TextReport {
    var details := ValidateIdDetails(rawText);
    TextReport(rawText != "", details.foundKeywords, Sample(details.cleanedText))
  }

  /** Text was found iff OCR gave any; the sample is empty exactly then, and otherwise at most 103 characters ending in "...". */
  lemma ReportTextSpec(rawText: string)
    ensures ReportText(rawText).ocrTextFound <==> rawText != ""
    ensures ReportText(rawText).maskedTextSample == "" <==> rawText == ""
    ensures var r := ReportText(rawText).maskedTextSample;
      rawText != "" ==> (4 <= |r| <= 103 && r[|r| - 3..] == "..."
        && |r| - 3 <= |MaskRuns(rawText)| && r[..|r| - 3] == MaskRuns(rawText)[..|r| - 3])
  {
    CleanedTextSpec(rawText);
  }
}
