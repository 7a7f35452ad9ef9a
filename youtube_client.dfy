/**
 * The YouTube dashboard's input handling: `extractVideoId`, the checks that
 * `analyzeVideo` makes before and after its request, and the falsy branch of
 * `formatNumber`.
 *
 * `extractVideoId` matches
 *   /^.*(youtu.be\/|v\/|u\/\w\/|embed\/|watch\?v=|\&v=)([^#\&\?]*).* /
 * The greedy `^.*` makes the engine try marker positions from the right, and
 * `.` does not match line terminators, so the marker taken is the rightmost
 * one that starts before the first line terminator.  After the marker,
 * `[^#&?]*` takes the whole run, and the trailing `.*` always succeeds.
 */
module YouTubeClient {
  import opened Wrappers
  import opened Js
  import opened Text
  import opened Http

  const EmptyInput := "Please enter a YouTube URL"
  const InvalidUrl := "Invalid YouTube URL. Please check and try again."
  const FetchFailed := "Failed to fetch data"

  /** The characters JavaScript's `.` does not match. */
  predicate IsLineTerminator(c: char) {
    c == '\n' || c == '\r' || c == '\U{2028}' || c == '\U{2029}'
  }

  /** `youtu.be\/`: "youtu", any character but a line terminator, "be/". */
  predicate ShortLinkAt(s: string, p: nat) {
    StartsAt(s, p, "youtu") && p + 9 <= |s| && !IsLineTerminator(s[p + 5]) && StartsAt(s, p + 6, "be/")
  }

  /** `u\/\w\/`. */
  predicate UserPathAt(s: string, p: nat) {
    StartsAt(s, p, "u/") && p + 4 <= |s| && IsWordChar(s[p + 2]) && s[p + 3] == '/'
  }

  /** The length of the first alternative of the marker group that matches at `p`. */
  function MarkerAt(s: string, p: nat): (r: Option<nat>)
    ensures r.Some? ==> p + r.value <= |s|
  {
    if ShortLinkAt(s, p) then Some(9)
    else if StartsAt(s, p, "v/") then Some(2)
    else if UserPathAt(s, p) then Some(4)
    else if StartsAt(s, p, "embed/") then Some(6)
    else if StartsAt(s, p, "watch?v=") then Some(8)
    else if StartsAt(s, p, "&v=") then Some(3)
    else None
  }

  /** The six alternatives begin with six different characters: at most one matches at any position. */
  lemma AtMostOneMarker(s: string, p: nat)
    ensures ShortLinkAt(s, p) ==> s[p] == 'y'
    ensures StartsAt(s, p, "v/") ==> s[p] == 'v'
    ensures UserPathAt(s, p) ==> s[p] == 'u'
    ensures StartsAt(s, p, "embed/") ==> s[p] == 'e'
    ensures StartsAt(s, p, "watch?v=") ==> s[p] == 'w'
    ensures StartsAt(s, p, "&v=") ==> s[p] == '&'
    ensures UserPathAt(s, p) ==> s[p + 1] == '/'
    ensures StartsAt(s, p, "embed/") ==> s[p + 1] == 'm'
  {
    if ShortLinkAt(s, p) { assert s[p..p + 5][0] == s[p]; }
    if StartsAt(s, p, "v/") { assert s[p..p + 2][0] == s[p]; }
    if UserPathAt(s, p) { assert s[p..p + 2][0] == s[p] && s[p..p + 2][1] == s[p + 1]; }
    if StartsAt(s, p, "embed/") { assert s[p..p + 6][0] == s[p] && s[p..p + 6][1] == s[p + 1]; }
    if StartsAt(s, p, "watch?v=") { assert s[p..p + 8][0] == s[p]; }
    if StartsAt(s, p, "&v=") { assert s[p..p + 3][0] == s[p]; }
  }

  /** The index of the first line terminator, |s| when there is none. */
  function FirstLineEnd(s: string, from: nat): (r: nat)
    requires from <= |s|
    ensures from <= r <= |s|
    ensures forall i :: from <= i < r ==> !IsLineTerminator(s[i])
    ensures r == |s| || IsLineTerminator(s[r])
    decreases |s| - from
  {
    if from == |s| || IsLineTerminator(s[from]) then from else FirstLineEnd(s, from + 1)
  }

  /** The largest position at or below `p` where a marker matches. */
  function LastMarkerFrom(s: string, p: nat): (r: Option<nat>)
    ensures r.Some? ==> r.value <= p && MarkerAt(s, r.value).Some?
    ensures r.Some? ==> forall j :: r.value < j <= p ==> MarkerAt(s, j).None?
    ensures r.None? ==> forall j :: 0 <= j <= p ==> MarkerAt(s, j).None?
    decreases p
  {
    if MarkerAt(s, p).Some? then Some(p)
    else if p == 0 then None
    else LastMarkerFrom(s, p - 1)
  }

  /** The `[^#&?]*` run after the marker that starts at `p`. */
  function RunAfterMarker(s: string, p: nat): (r: string)
    requires MarkerAt(s, p).Some?
    ensures forall i :: 0 <= i < |r| ==> InClass(r[i], NotHashAmpQuery)
  {
    var q := p + MarkerAt(s, p).value;
    var n := RunLength(s, q, NotHashAmpQuery);
    s[q..q + n]
  }

  /** `extractVideoId(url)`: the run after the rightmost reachable marker, when it is 11 characters long. */
  function ExtractVideoId(url: string): (r: Option<string>)
    ensures r.Some? ==> |r.value| == 11
    ensures r.Some? ==> forall i :: 0 <= i < |r.value| ==> r.value[i] != '#' && r.value[i] != '&' && r.value[i] != '?'
  {
    match LastMarkerFrom(url, FirstLineEnd(url, 0))
    case None => None
    case Some(p) =>
      var run := RunAfterMarker(url, p);
      if |run| == 11 then Some(run) else None
  }

  /** `^.*` can consume exactly the prefixes without a line terminator. */
  ghost predicate Reachable(s: string, p: int) {
    0 <= p <= |s| && forall i :: 0 <= i < p ==> !IsLineTerminator(s[i])
  }

  /** The position the regular expression's marker group matches at: reachable, and no reachable marker to its right. */
  ghost predicate GreedyMarker(s: string, p: nat) {
    Reachable(s, p) && MarkerAt(s, p).Some?
    && forall j :: p < j <= |s| && Reachable(s, j) ==> MarkerAt(s, j).None?
  }

  lemma ReachableBelowLineEnd(s: string, j: int)
    ensures Reachable(s, j) <==> 0 <= j <= FirstLineEnd(s, 0)
  {
  }

  /** Without a reachable marker, there is no id. */
  lemma NoMarkerNoId(s: string)
    requires forall p :: 0 <= p <= |s| && Reachable(s, p) ==> MarkerAt(s, p).None?
    ensures ExtractVideoId(s) == None
  {
    var e := FirstLineEnd(s, 0);
    assert Reachable(s, e);
    if LastMarkerFrom(s, e).Some? {
      var p := LastMarkerFrom(s, e).value;
      ReachableBelowLineEnd(s, p);
    }
  }

  /**
   * The rightmost reachable marker decides: the id is the run after it if
   * that run is 11 characters long, and there is none otherwise, whatever an
   * earlier marker would have given.
   */
  lemma {:induction false} RightmostMarkerDecides(s: string, p: nat)
    requires GreedyMarker(s, p)
    ensures ExtractVideoId(s) == if |RunAfterMarker(s, p)| == 11 then Some(RunAfterMarker(s, p)) else None
  {
    var e := FirstLineEnd(s, 0);
    ReachableBelowLineEnd(s, p);
    var r := LastMarkerFrom(s, e);
    assert r.Some?;
    if r.value != p {
      assert p < r.value <= e;
      ReachableBelowLineEnd(s, r.value);
      assert false;
    }
  }

  /** Every id found comes from the greedy marker position. */
  lemma {:induction false} IdComesFromGreedyMarker(s: string)
    requires ExtractVideoId(s).Some?
    ensures exists p :: GreedyMarker(s, p) && RunAfterMarker(s, p) == ExtractVideoId(s).value
  {
    var e := FirstLineEnd(s, 0);
    var p := LastMarkerFrom(s, e).value;
    ReachableBelowLineEnd(s, p);
    forall j | p < j <= |s| && Reachable(s, j) ensures MarkerAt(s, j).None? {
      ReachableBelowLineEnd(s, j);
    }
    assert GreedyMarker(s, p);
  }

  /** A string without line terminators can be consumed whole by `^.*`. */
  lemma WithoutLineTerminator(s: string)
    requires '\n' !in s && '\r' !in s && '\U{2028}' !in s && '\U{2029}' !in s
    ensures Reachable(s, |s|)
  {
    assert forall i :: 0 <= i < |s| ==> s[i] in s;
  }

  const LaterMarkerUrl := "youtu.be/abcdefghijk&v=xyz"

  lemma LaterMarkerIsLast(s: string)
    requires s == LaterMarkerUrl
    ensures MarkerAt(s, 20) == Some(3)
    ensures forall j :: 20 < j <= |s| ==> MarkerAt(s, j).None?
  {
    assert StartsAt(s, 20, "&v=");
    AtMostOneMarker(s, 20);
    forall j | 20 < j <= |s| ensures MarkerAt(s, j).None? {
      AtMostOneMarker(s, j);
      if j == 21 { assert s[21..23] == "v="; }
      else if j == 22 { assert s[22] == '='; }
      else if j == 23 { assert s[23] == 'x'; }
      else if j == 24 { assert s[24] == 'y'; }
      else if j == 25 { assert s[25] == 'z'; }
    }
  }

  /** The run after the "&v=" marker is the last three characters. */
  lemma LaterMarkerRun(s: string)
    requires s == LaterMarkerUrl && MarkerAt(s, 20) == Some(3)
    ensures |RunAfterMarker(s, 20)| == 3
  {
    assert s[23] != '#' && s[23] != '&' && s[23] != '?';
    assert s[24] != '#' && s[24] != '&' && s[24] != '?';
    assert s[25] != '#' && s[25] != '&' && s[25] != '?';
    assert RunLength(s, 26, NotHashAmpQuery) == 0;
  }

  /** Example: a later "&v=" marker hides the 11-character id before it. */
  lemma LaterMarkerWins()
    ensures ExtractVideoId(LaterMarkerUrl) == None
  {
    var s := LaterMarkerUrl;
    LaterMarkerIsLast(s);
    LaterMarkerReachable();
    assert GreedyMarker(s, 20);
    LaterMarkerRun(s);
    RightmostMarkerDecides(s, 20);
  }

  lemma LaterMarkerReachable()
    ensures Reachable(LaterMarkerUrl, |LaterMarkerUrl|)
  {
    assert '\n' !in LaterMarkerUrl && '\r' !in LaterMarkerUrl;
    assert '\U{2028}' !in LaterMarkerUrl && '\U{2029}' !in LaterMarkerUrl;
    WithoutLineTerminator(LaterMarkerUrl);
  }

  /** No marker starts inside a tail that holds none of the six first characters. */
  lemma NoMarkerInTail(a: string, t: string)
    requires 'y' !in t && 'v' !in t && 'u' !in t && 'e' !in t && 'w' !in t && '&' !in t
    ensures forall j :: |a| <= j <= |a + t| ==> MarkerAt(a + t, j).None?
  {
    forall j | |a| <= j <= |a + t| ensures MarkerAt(a + t, j).None? {
      AtMostOneMarker(a + t, j);
      if j < |a + t| {
        assert (a + t)[j] == t[j - |a|];
        assert t[j - |a|] in t;
      }
    }
  }

  /** A position whose character cannot begin any of the six alternatives. */
  lemma NoMarkerAt(s: string, j: nat)
    requires j + 1 < |s|
    requires s[j] != 'y' && s[j] != 'v' && s[j] != 'w' && s[j] != '&'
    requires s[j] == 'u' ==> s[j + 1] != '/'
    requires s[j] == 'e' ==> s[j + 1] != 'm'
    ensures MarkerAt(s, j).None?
  {
    AtMostOneMarker(s, j);
  }

  const ShortLinkId := "abcdfghijkl"
  const ShortLinkUrl := "youtu.be/" + ShortLinkId

  lemma ShortLinkIsLast(s: string)
    requires s == ShortLinkUrl
    ensures MarkerAt(s, 0) == Some(9)
    ensures forall j :: 0 < j < 9 ==> MarkerAt(s, j).None?
    ensures forall j :: 9 <= j <= |s| ==> MarkerAt(s, j).None?
  {
    NoMarkerInTail("youtu.be/", ShortLinkId);
    forall j | 0 < j < 9 ensures MarkerAt(s, j).None? {
      if j == 1 { NoMarkerAt(s, 1); }
      else if j == 2 { NoMarkerAt(s, 2); }
      else if j == 3 { NoMarkerAt(s, 3); }
      else if j == 4 { NoMarkerAt(s, 4); }
      else if j == 5 { NoMarkerAt(s, 5); }
      else if j == 6 { NoMarkerAt(s, 6); }
      else if j == 7 { NoMarkerAt(s, 7); }
      else { NoMarkerAt(s, 8); }
    }
  }

  lemma ShortLinkRun(s: string)
    requires s == ShortLinkUrl
    ensures RunLength(s, 9, NotHashAmpQuery) == 11 && s[9..20] == ShortLinkId
  {
    var id := ShortLinkId;
    assert s[9..] == id;
    assert '#' !in id && '&' !in id && '?' !in id;
    assert forall i :: 0 <= i < |id| ==> id[i] in id;
    assert IsMaximalRunAt(s, 9, NotHashAmpQuery, id);
    MaximalRunIsRunLength(s, 9, NotHashAmpQuery, id);
  }

  /** Example: a short link gives the 11 characters after "youtu.be/". */
  lemma ShortLinkExample()
    ensures ExtractVideoId(ShortLinkUrl) == Some(ShortLinkId)
  {
    var s := ShortLinkUrl;
    ShortLinkIsLast(s);
    assert GreedyMarker(s, 0);
    ShortLinkRun(s);
    RightmostMarkerDecides(s, 0);
  }

  /** What `analyzeVideo` does with the input box's value before any request. */
  datatype Start =
    | Refuse(message: string)
    | Request(path: string)

  function StartAnalysis(input: string): Start {
    var url := Trim(input);
    if url == "" then Refuse(EmptyInput)
    else match ExtractVideoId(url)
      case None => Refuse(InvalidUrl)
      case Some(id) => Request("/api/video-stats?videoId=" + id)
  }

  /** A request is issued only for a non-blank input with an 11-character id; otherwise one of the two messages shows. */
  lemma StartAnalysisChecks(input: string)
    ensures Trim(input) == "" <==> StartAnalysis(input) == Refuse(EmptyInput)
    ensures Trim(input) != "" && ExtractVideoId(Trim(input)).None? <==> StartAnalysis(input) == Refuse(InvalidUrl)
    ensures StartAnalysis(input).Request? <==>
      Trim(input) != "" && ExtractVideoId(Trim(input)).Some?
    ensures StartAnalysis(input).Request? ==>
      exists id :: |id| == 11 && StartAnalysis(input).path == "/api/video-stats?videoId=" + id
  {
    if StartAnalysis(input).Request? {
      var id := ExtractVideoId(Trim(input)).value;
      assert |id| == 11;
    }
  }

  /** What the page shows once the request settled. */
  datatype Shown =
    | Message(text: string)
    | NothingShown
    | Stats(data: Json)

  /** `showError(message)`: an empty message hides the error box instead. */
  function ShowError(message: string): (r: Shown)
    ensures r.Message? <==> message != ""
    ensures r.Message? ==> r.text == message
    ensures !r.Stats?
  {
    if message == "" then NothingShown else Message(message)
  }

  /** The `try` block after the fetch, and its `catch`; a rejected fetch carries its own message. */
  function AnalysisResult(outcome: FetchOutcome): Shown {
    match outcome
    case Rejected(m) => ShowError(m)
    case Received(ok, data) =>
      if Nullish(data) then ShowError(TypeErrorMessage(data, if ok then "thumbnailUrl" else "error"))
      else if !ok then ShowError(ToJsString(Or(Get(data, "error"), Str(FetchFailed))))
      else Stats(data)
  }

  /**
   * A non-ok response never displays stats: it shows `data.error`, or the
   * fixed text when that is falsy; an ok response with a payload displays it.
   */
  lemma NotOkShowsMessage(data: Json)
    ensures !AnalysisResult(Received(false, data)).Stats?
    ensures !Nullish(data) && !Truthy(Get(data, "error")) ==> AnalysisResult(Received(false, data)) == Message(FetchFailed)
    ensures forall m :: !Nullish(data) && Get(data, "error") == Str(m) && m != "" ==> AnalysisResult(Received(false, data)) == Message(m)
    ensures !Nullish(data) ==> AnalysisResult(Received(true, data)) == Stats(data)
  {
  }

  /** `formatNumber(num)`: '0' for falsy input; otherwise `parseInt(num).toLocaleString()`, which is not modelled. */
  datatype NumberText =
    | Zero
    | Localized(num: Json)

  function FormatNumber(num: Json): (r: NumberText)
    ensures r == Zero <==> !Truthy(num)
  {
    if !Truthy(num) then Zero else Localized(num)
  }
}
