/**
 * The Instagram dashboard's `getStats`: the clean-up of the typed username,
 * the request it makes, and how it classifies the proxy's answer; plus the
 * falsy branch of `formatNumber`.
 */
module InstagramClient {
  import opened Wrappers
  import opened Js
  import opened Text
  import opened Http
  import InstagramServer

  const UrlMarker := "instagram.com/"
  const FetchFailed := "Failed to fetch stats"

  /**
   * The username `getStats` requests, None when the trimmed input is empty
   * and nothing is requested.  A pasted profile URL gives the
   * `[a-zA-Z0-9_.]+` run after its first "instagram.com/"; then the first '@'
   * is dropped.
   */
  function CleanUsername(input: string): Option<string> {
    var raw := Trim(input);
    if raw == "" then None
    else
      var fromUrl := if Contains(raw, UrlMarker) then MatchCapture(raw, UrlMarker, WordOrDot) else None;
      var name := if fromUrl.Some? then fromUrl.value else raw;
      Some(RemoveFirst(name, '@'))
  }

  /** The clean-up as `getStats` writes it, updating `username` in place. */
  method GetStatsUsername(input: string) returns (username: Option<string>)
    ensures username == CleanUsername(input)
  {
    var rawInput := Trim(input);
    if rawInput == "" {
      return None;
    }
    var name := rawInput;
    if Contains(name, UrlMarker) {
      var m := MatchCapture(name, UrlMarker, WordOrDot);
      if m.Some? {
        name := m.value;
      }
    }
    name := RemoveFirst(name, '@');
    username := Some(name);
  }

  /** The request `getStats` makes for a cleaned username. */
  function RequestUrl(username: string): (r: string)
    ensures |r| == |"http://localhost:5001/instagram?username="| + |username|
    ensures r[..|"http://localhost:5001/instagram?username="|] == "http://localhost:5001/instagram?username="
    ensures r[|r| - |username|..] == username
  {
    "http://localhost:5001/instagram?username=" + username
  }

  /** Nothing is requested exactly when the trimmed input is empty. */
  lemma EmptyInputNoRequest(input: string)
    ensures CleanUsername(input).None? <==> Trim(input) == ""
  {
  }

  /** A username taken from a profile URL is the leftmost `[a-zA-Z0-9_.]+` run after the marker, and has no '@'. */
  lemma {:induction false} FromProfileUrl(input: string)
    requires Trim(input) != "" && Contains(Trim(input), UrlMarker)
    requires MatchCapture(Trim(input), UrlMarker, WordOrDot).Some?
    ensures var name := MatchCapture(Trim(input), UrlMarker, WordOrDot).value;
      && CleanUsername(input) == Some(name)
      && IsLeftmostCapture(Trim(input), UrlMarker, WordOrDot, name)
      && |name| >= 1 && '@' !in name
  {
    var raw := Trim(input);
    var name := MatchCapture(raw, UrlMarker, WordOrDot).value;
    MatchCaptureIsLeftmost(raw, UrlMarker, WordOrDot);
    var p :| && 0 <= p
              && PrefixedRunAt(raw, p, UrlMarker, WordOrDot)
              && (forall j :: 0 <= j < p ==> !PrefixedRunAt(raw, j, UrlMarker, WordOrDot))
              && IsMaximalRunAt(raw, p + |UrlMarker|, WordOrDot, name);
    assert forall i :: 0 <= i < |name| ==> name[i] != '@';
  }

  /** When the marker is there but the pattern does not match, the trimmed input is kept (less its first '@'). */
  lemma MarkerWithoutMatch(input: string)
    requires Trim(input) != "" && MatchCapture(Trim(input), UrlMarker, WordOrDot).None?
    ensures CleanUsername(input) == Some(RemoveFirst(Trim(input), '@'))
  {
  }

  /** Only the first '@' goes: the characters before and after it stay, in order. */
  lemma OnlyFirstAtRemoved(input: string)
    requires Trim(input) != "" && MatchCapture(Trim(input), UrlMarker, WordOrDot).None?
    requires '@' in Trim(input)
    ensures var raw := Trim(input); var name := CleanUsername(input).value;
      exists i :: 0 <= i < |raw| && raw[i] == '@' && '@' !in raw[..i] && name == raw[..i] + raw[i + 1..]
    ensures var name := CleanUsername(input).value;
      && |name| == |Trim(input)| - 1
      && multiset(name) == multiset(Trim(input)) - multiset{'@'}
  {
  }

  /** So "@@name" is requested as "@name": the second '@' survives. */
  lemma DoubledAtKeepsOne(input: string)
    requires var raw := Trim(input); |raw| >= 2 && raw[0] == '@' && raw[1] == '@' && !Contains(raw, UrlMarker)
    ensures CleanUsername(input) == Some(Trim(input)[1..])
    ensures '@' in CleanUsername(input).value
  {
    var raw := Trim(input);
    assert IndexOf(raw, '@') == 0;
    assert RemoveFirst(raw, '@') == raw[..0] + raw[1..] == raw[1..];
    assert raw[1..][0] == '@';
  }

  /** Input without the marker and without '@' is requested as typed, apart from trimming. */
  lemma PlainInputUnchanged(input: string)
    requires Trim(input) != "" && !Contains(Trim(input), UrlMarker) && '@' !in Trim(input)
    ensures CleanUsername(input) == Some(Trim(input))
  {
  }

  /** What the page shows for the proxy's answer. */
  datatype View =
    | ErrorOnly(message: string)
    | RawAndError(raw: Json, message: string)
    | Render(data: Json)

  /**
   * The `try` block after the fetch, and its `catch`: a non-ok response
   * throws `data.message || data.error || 'Failed to fetch stats'`; a
   * `warning` shows the raw data and then throws the warning; anything else
   * is rendered.  A nullish payload throws on its first property read.
   */
  function Classify(outcome: FetchOutcome): View {
    match outcome
    case Rejected(m) => ErrorOnly(m)
    case Received(ok, data) =>
      if Nullish(data) then ErrorOnly(TypeErrorMessage(data, if ok then "warning" else "message"))
      else if !ok then ErrorOnly(ToJsString(Or(Or(Get(data, "message"), Get(data, "error")), Str(FetchFailed))))
      else if Truthy(Get(data, "warning")) then RawAndError(Get(data, "raw"), ToJsString(Get(data, "warning")))
      else Render(data)
  }

  /** Stats are rendered only for an ok answer without a warning, and then always. */
  lemma ClassifyOrder(ok: bool, data: Json)
    requires !Nullish(data)
    ensures Classify(Received(ok, data)).Render? <==> ok && !Truthy(Get(data, "warning"))
    ensures Classify(Received(ok, data)).RawAndError? <==> ok && Truthy(Get(data, "warning"))
    ensures !ok ==> Classify(Received(ok, data)) == ErrorOnly(ToJsString(Or(Or(Get(data, "message"), Get(data, "error")), Str(FetchFailed))))
    ensures !ok && !Truthy(Get(data, "message")) && !Truthy(Get(data, "error")) ==>
      Classify(Received(ok, data)) == ErrorOnly(FetchFailed)
  {
  }

  /** The proxy's 200 fallback reaches the page as the untouched payload plus the proxy's warning. */
  lemma RawFallbackShown(data: Json)
    ensures var body := Obj(map["warning" := Str(InstagramServer.RawWarning), "raw" := data]);
      Classify(Received(true, body)) == RawAndError(data, InstagramServer.RawWarning)
  {
    var body := Obj(map["warning" := Str(InstagramServer.RawWarning), "raw" := data]);
    assert Get(body, "warning") == Str(InstagramServer.RawWarning);
    assert Get(body, "raw") == data;
  }

  /** `formatNumber(num)`: '0' for falsy input; otherwise the compact `Intl.NumberFormat` text, which is not modelled. */
  datatype NumberText =
    | Zero
    | Compact(num: Json)

  function FormatNumber(num: Json): (r: NumberText)
    ensures r == Zero <==> !Truthy(num)
  {
    if !Truthy(num) then Zero else Compact(num)
  }
}
