/**
 * The `/twitter?url=...` route of the Twitter/X stats proxy: presence and
 * configuration checks, URL classification, extraction of the tweet id or
 * the handle, the choice of upstream endpoint, and the parsing of the
 * upstream payload in a fixed priority order.
 */
module TwitterServer {
  import opened Wrappers
  import opened Js
  import opened Text
  import opened Http

  const UrlRequired := "URL is required"
  const KeyMissing := "Server API key not configured"
  const InvalidTweetUrl := "Invalid Tweet URL"
  const InvalidProfileUrl := "Invalid Profile URL"
  const UnknownUrlKind := "Could not determine if URL is tweet or profile"
  const UnknownFormat := "Unknown API response format. Check server logs for raw data."
  const UnknownFormatDetails := "The API returned data, but we could not find the stats in the expected structure. See terminal for full JSON."

  /** `url.includes('/status/')`. */
  predicate IsTweetUrl(url: string) {
    Contains(url, "/status/")
  }

  /** Not a tweet, and the URL names one of the two hosts. */
  predicate IsProfileUrl(url: string) {
    !IsTweetUrl(url) && (Contains(url, "twitter.com") || Contains(url, "x.com"))
  }

  /** Group 1 of `url.match(/status\/(\d+)/)`. */
  function TweetId(url: string): Option<string> {
    MatchCapture(url, "status/", Digits)
  }

  /** `url.match(/x\.com\/(\w+)/) || url.match(/twitter\.com\/(\w+)/)`, group 1. */
  function ProfileHandle(url: string): Option<string> {
    match MatchCapture(url, "x.com/", WordChars)
    case Some(h) => Some(h)
    case None => MatchCapture(url, "twitter.com/", WordChars)
  }

  /** What the handler does before calling upstream: reply at once, or call `apiUrl` with `params`. */
  datatype Decision =
    | Respond(reply: Reply)
    | Call(isTweet: bool, isProfile: bool, apiUrl: string, params: map<string, string>)

  /** The handler up to the upstream call. `key` and `host` are RAPIDAPI_KEY and RAPIDAPI_HOST. */
  function Route(url: Option<string>, key: Option<string>, host: Option<string>): Decision {
    if url.None? || url.value == "" then Respond(Reply(400, ErrorBody(UrlRequired)))
    else
      var u := url.value;
      var isTweet := IsTweetUrl(u);
      var isProfile := IsProfileUrl(u);
      if !EnvSet(key) then Respond(Reply(500, ErrorBody(KeyMissing)))
      else if isTweet then
        match TweetId(u)
        case None => Respond(Reply(400, ErrorBody(InvalidTweetUrl)))
        case Some(id) => Call(isTweet, isProfile, "https://" + EnvText(host) + "/tweet.php", map["id" := id])
      else if isProfile then
        match ProfileHandle(u)
        case None => Respond(Reply(400, ErrorBody(InvalidProfileUrl)))
        case Some(h) => Call(isTweet, isProfile, "https://" + EnvText(host) + "/screenname.php", map["screenname" := h])
      else Respond(Reply(400, ErrorBody(UnknownUrlKind)))
  }

  /** `params.k`. */
  function Param(params: map<string, string>, k: string): Json {
    if k in params then Str(params[k]) else Undefined
  }

  /** The two shapes of reply the route produces on success. */
  datatype Stats =
    | TweetStats(id: Json, likes: Json, retweets: Json, replies: Json, views: Json, text: Json, author: Json)
    | ProfileStats(username: Json, followers: Json, following: Json, tweets: Json, description: Json)

  /** The JSON object sent for `st`, tagged with its `type`. */
  function StatsBody(st: Stats): Json {
    match st
    case TweetStats(id, likes, retweets, replies, views, text, author) =>
      Obj(map["type" := Str("tweet"), "id" := id, "likes" := likes, "retweets" := retweets,
              "replies" := replies, "views" := views, "text" := text, "author" := author])
    case ProfileStats(username, followers, following, tweets, description) =>
      Obj(map["type" := Str("profile"), "username" := username, "followers" := followers,
              "following" := following, "tweets" := tweets, "description" := description])
  }

  /** The flat tweet shape (`likes`/`favorite_count`, ...). */
  function LegacyTweet(params: map<string, string>, data: Json): Stats {
    var user := Get(data, "user");
    TweetStats(
      Param(params, "id"),
      Or(Or(Get(data, "likes"), Get(data, "favorite_count")), Num(0)),
      Or(Or(Get(data, "retweets"), Get(data, "retweet_count")), Num(0)),
      Or(Or(Get(data, "replies"), Get(data, "reply_count")), Num(0)),
      Or(Or(Get(data, "views"), Get(data, "view_count")), Str("N/A")),
      Or(Get(data, "text"), Get(data, "full_text")),
      if Truthy(user) then Get(user, "screen_name") else Str("Unknown"))
  }

  /** The flat profile shape (`followers_count`/`sub_count`, ...). */
  function LegacyProfile(params: map<string, string>, data: Json): Stats {
    ProfileStats(
      Or(Get(data, "screen_name"), Param(params, "screenname")),
      Or(Or(Get(data, "followers_count"), Get(data, "sub_count")), Num(0)),
      Or(Get(data, "friends_count"), Num(0)),
      Or(Get(data, "statuses_count"), Num(0)),
      Or(Get(data, "description"), Str("")))
  }

  /** Step 1, gated by the URL kind. Reading a property of a null payload throws. */
  function LegacyStats(isTweet: bool, isProfile: bool, params: map<string, string>, data: Json): Result<Option<Stats>> {
    if isTweet then
      var likes :- Read(data, "likes");
      if Truthy(Or(likes, Get(data, "favorite_count"))) then Success(Some(LegacyTweet(params, data)))
      else LegacyProfileStep(isProfile, params, data)
    else LegacyProfileStep(isProfile, params, data)
  }

  function LegacyProfileStep(isProfile: bool, params: map<string, string>, data: Json): Result<Option<Stats>> {
    if isProfile then
      var followers :- Read(data, "followers_count");
      if Truthy(Or(followers, Get(data, "sub_count"))) then Success(Some(LegacyProfile(params, data)))
      else Success(None)
    else Success(None)
  }

  /** `data?.data?.user?.result || data?.user?.result`. */
  function UserResult(data: Json): Json {
    Or(Path(data, ["data", "user", "result"]), Path(data, ["user", "result"]))
  }

  /** `data?.data?.tweetResult?.result || data?.tweetResult?.result`. */
  function TweetResult(data: Json): Json {
    Or(Path(data, ["data", "tweetResult", "result"]), Path(data, ["tweetResult", "result"]))
  }

  /** `result && result.legacy`, as a condition. */
  predicate HasLegacy(result: Json) {
    Truthy(result) && Truthy(Get(result, "legacy"))
  }

  function GraphQLProfile(params: map<string, string>, userResult: Json): Stats {
    var legacy := Get(userResult, "legacy");
    ProfileStats(
      Or(Get(legacy, "screen_name"), Param(params, "screenname")),
      Get(legacy, "followers_count"),
      Get(legacy, "friends_count"),
      Get(legacy, "statuses_count"),
      Or(Get(legacy, "description"), Str("")))
  }

  function GraphQLTweet(tweetResult: Json): Stats {
    var legacy := Get(tweetResult, "legacy");
    var user := Or(Path(tweetResult, ["core", "user_results", "result", "legacy"]), Obj(map[]));
    TweetStats(
      Get(legacy, "id_str"),
      Get(legacy, "favorite_count"),
      Get(legacy, "retweet_count"),
      Get(legacy, "reply_count"),
      Or(Path(tweetResult, ["views", "count"]), Str("N/A")),
      Get(legacy, "full_text"),
      Or(Get(user, "screen_name"), Str("Unknown")))
  }

  /** Step 2, whatever the URL kind: a tweet result takes precedence over a user result. */
  function GraphQLStats(params: map<string, string>, data: Json): Option<Stats> {
    var tweetResult := TweetResult(data);
    var userResult := UserResult(data);
    if HasLegacy(tweetResult) then Some(GraphQLTweet(tweetResult))
    else if HasLegacy(userResult) then Some(GraphQLProfile(params, userResult))
    else None
  }

  /** The payload parser: step 1, and step 2 only when step 1 found nothing. */
  function ParseStats(isTweet: bool, isProfile: bool, params: map<string, string>, data: Json): Result<Option<Stats>> {
    var legacy :- LegacyStats(isTweet, isProfile, params, data);
    if legacy.Some? then Success(legacy) else Success(GraphQLStats(params, data))
  }

  /** The `catch` block for an error without `error.response`. */
  function InternalError(message: string): Reply {
    Reply(500, ErrorDetailsBody("Internal Server Error", Str(message)))
  }

  /** Everything after the upstream call settled with `upstream`. */
  function ReplyToUpstream(isTweet: bool, isProfile: bool, params: map<string, string>, upstream: AxiosOutcome): Reply {
    match upstream
    case ErrorResponse(status, _, body) => Reply(status, ErrorDetailsBody("API request failed", body))
    case NoResponse(message) => InternalError(message)
    case Resolved(data) =>
      match ParseStats(isTweet, isProfile, params, data)
      case Failure(message) => InternalError(message)
      case Success(None) => Reply(500, ErrorDetailsBody(UnknownFormat, Str(UnknownFormatDetails)))
      case Success(Some(st)) => Reply(200, StatsBody(st))
  }

  /** The whole handler, given what the upstream call would settle with. */
  function TwitterReply(url: Option<string>, key: Option<string>, host: Option<string>, upstream: AxiosOutcome): Reply {
    match Route(url, key, host)
    case Respond(r) => r
    case Call(isTweet, isProfile, _, params) => ReplyToUpstream(isTweet, isProfile, params, upstream)
  }

  /**
   * The handler written as the source runs it: `apiUrl`, `params` and `stats`
   * are locals filled in turn, and a GraphQL tweet result overwrites a
   * GraphQL profile result already stored in `stats`.
   */
  method HandleTwitter(url: Option<string>, key: Option<string>, host: Option<string>, upstream: AxiosOutcome)
    returns (reply: Reply)
    ensures reply == TwitterReply(url, key, host, upstream)
  {
    if url.None? || url.value == "" {
      return Reply(400, ErrorBody(UrlRequired));
    }
    var u := url.value;
    var isTweet := IsTweetUrl(u);
    var isProfile := IsProfileUrl(u);
    if !EnvSet(key) {
      return Reply(500, ErrorBody(KeyMissing));
    }
    var apiUrl := "";
    var params: map<string, string> := map[];
    if isTweet {
      var m := TweetId(u);
      if m.None? {
        return Reply(400, ErrorBody(InvalidTweetUrl));
      }
      apiUrl := "https://" + EnvText(host) + "/tweet.php";
      params := map["id" := m.value];
    } else if isProfile {
      var m := ProfileHandle(u);
      if m.None? {
        return Reply(400, ErrorBody(InvalidProfileUrl));
      }
      apiUrl := "https://" + EnvText(host) + "/screenname.php";
      params := map["screenname" := m.value];
    } else {
      return Reply(400, ErrorBody(UnknownUrlKind));
    }

    var data: Json;
    match upstream {
      case ErrorResponse(status, _, body) =>
        return Reply(status, ErrorDetailsBody("API request failed", body));
      case NoResponse(message) =>
        return InternalError(message);
      case Resolved(d) =>
        data := d;
    }

    var stats: Option<Stats> := None;
    var tweetGate := false;
    if isTweet {
      if Nullish(data) {
        return InternalError(TypeErrorMessage(data, "likes"));
      }
      tweetGate := Truthy(Or(Get(data, "likes"), Get(data, "favorite_count")));
    }
    if tweetGate {
      stats := Some(LegacyTweet(params, data));
    } else if isProfile {
      if Nullish(data) {
        return InternalError(TypeErrorMessage(data, "followers_count"));
      }
      if Truthy(Or(Get(data, "followers_count"), Get(data, "sub_count"))) {
        stats := Some(LegacyProfile(params, data));
      }
    }

    if stats.None? {
      var userResult := UserResult(data);
      if HasLegacy(userResult) {
        stats := Some(GraphQLProfile(params, userResult));
      }
      var tweetResult := TweetResult(data);
      if HasLegacy(tweetResult) {
        stats := Some(GraphQLTweet(tweetResult));
      }
    }

    if stats.None? {
      return Reply(500, ErrorDetailsBody(UnknownFormat, Str(UnknownFormatDetails)));
    }
    reply := Reply(200, StatsBody(stats.value));
  }

  // ---------------------------------------------------------------- routing

  /** A missing or empty `url` is answered 400 before anything else is looked at. */
  lemma MissingUrlFirst(url: Option<string>, key: Option<string>, host: Option<string>, upstream: AxiosOutcome)
    requires url.None? || url.value == ""
    ensures TwitterReply(url, key, host, upstream) == Reply(400, ErrorBody(UrlRequired))
  {
  }

  /**
   * A missing key is answered 500 for every non-empty URL, before the URL's
   * kind or shape is checked: an invalid URL without a key gets the 500.
   */
  lemma KeyBeforeUrlShape(u: string, key: Option<string>, host: Option<string>, upstream: AxiosOutcome)
    requires u != "" && !EnvSet(key)
    ensures TwitterReply(Some(u), key, host, upstream) == Reply(500, ErrorBody(KeyMissing))
  {
  }

  /** Classification: a "/status/" URL is a tweet and never a profile; otherwise a host name makes it a profile. */
  lemma Classification(u: string, key: Option<string>, host: Option<string>)
    requires u != "" && EnvSet(key)
    ensures Contains(u, "/status/") ==>
      (Route(Some(u), key, host).Call? && Route(Some(u), key, host).isTweet && !Route(Some(u), key, host).isProfile)
      || Route(Some(u), key, host) == Respond(Reply(400, ErrorBody(InvalidTweetUrl)))
    ensures !Contains(u, "/status/") && (Contains(u, "twitter.com") || Contains(u, "x.com")) ==>
      (Route(Some(u), key, host).Call? && !Route(Some(u), key, host).isTweet && Route(Some(u), key, host).isProfile)
      || Route(Some(u), key, host) == Respond(Reply(400, ErrorBody(InvalidProfileUrl)))
    ensures !Contains(u, "/status/") && !Contains(u, "twitter.com") && !Contains(u, "x.com") ==>
      Route(Some(u), key, host) == Respond(Reply(400, ErrorBody(UnknownUrlKind)))
  {
  }

  /**
   * A tweet URL is rejected exactly when no "status/" is followed by a digit;
   * otherwise the id is the digit run after the first such "status/", and
   * the call goes to tweet.php with `{id}`.
   */
  lemma {:induction false} TweetRoute(u: string, key: Option<string>, host: Option<string>)
    requires u != "" && EnvSet(key) && IsTweetUrl(u)
    ensures Route(Some(u), key, host) == Respond(Reply(400, ErrorBody(InvalidTweetUrl)))
      <==> forall j :: 0 <= j ==> !PrefixedRunAt(u, j, "status/", Digits)
    ensures TweetId(u).Some? ==>
      var id := TweetId(u).value;
      && Route(Some(u), key, host) == Call(true, false, "https://" + EnvText(host) + "/tweet.php", map["id" := id])
      && IsLeftmostCapture(u, "status/", Digits, id)
      && id != ""
      && forall i :: 0 <= i < |id| ==> IsDigit(id[i])
  {
    MatchCaptureNone(u, "status/", Digits);
    if TweetId(u).Some? {
      MatchCaptureIsLeftmost(u, "status/", Digits);
      CapturedChars(u, "status/", Digits, TweetId(u).value);
    }
  }

  /**
   * A profile URL takes its handle from the first "x.com/" followed by a word
   * character; "twitter.com/" is tried only when there is none.  The handle is
   * a non-empty word-character string and the call goes to screenname.php.
   */
  lemma {:induction false} ProfileRoute(u: string, key: Option<string>, host: Option<string>)
    requires u != "" && EnvSet(key) && IsProfileUrl(u)
    ensures Route(Some(u), key, host) == Respond(Reply(400, ErrorBody(InvalidProfileUrl)))
      <==> ((forall j :: 0 <= j ==> !PrefixedRunAt(u, j, "x.com/", WordChars))
        && (forall j :: 0 <= j ==> !PrefixedRunAt(u, j, "twitter.com/", WordChars)))
    ensures ProfileHandle(u).Some? ==>
      var h := ProfileHandle(u).value;
      && Route(Some(u), key, host) == Call(false, true, "https://" + EnvText(host) + "/screenname.php", map["screenname" := h])
      && (if MatchCapture(u, "x.com/", WordChars).Some?
          then IsLeftmostCapture(u, "x.com/", WordChars, h)
          else IsLeftmostCapture(u, "twitter.com/", WordChars, h))
      && h != ""
      && forall i :: 0 <= i < |h| ==> IsWordChar(h[i])
  {
    MatchCaptureNone(u, "x.com/", WordChars);
    MatchCaptureNone(u, "twitter.com/", WordChars);
    if MatchCapture(u, "x.com/", WordChars).Some? {
      MatchCaptureIsLeftmost(u, "x.com/", WordChars);
      CapturedChars(u, "x.com/", WordChars, ProfileHandle(u).value);
    } else if MatchCapture(u, "twitter.com/", WordChars).Some? {
      MatchCaptureIsLeftmost(u, "twitter.com/", WordChars);
      CapturedChars(u, "twitter.com/", WordChars, ProfileHandle(u).value);
    }
  }

  lemma CapturedChars(u: string, prefix: string, k: CharClass, h: string)
    requires IsLeftmostCapture(u, prefix, k, h)
    ensures forall i :: 0 <= i < |h| ==> InClass(h[i], k)
  {
  }

  // ---------------------------------------------------------------- parsing

  /**
   * Step 1 for a tweet URL: the flat tweet shape is recognised exactly when
   * `likes || favorite_count` is truthy; then likes is that value, retweets and
   * replies are truthy or 0, and views is truthy or 'N/A'.
   */
  lemma LegacyTweetGate(params: map<string, string>, data: Json)
    requires !Nullish(data)
    ensures (LegacyStats(true, false, params, data) == Success(Some(LegacyTweet(params, data))))
      <==> Truthy(Or(Get(data, "likes"), Get(data, "favorite_count")))
    ensures LegacyStats(true, false, params, data) == Success(Some(LegacyTweet(params, data))) ==>
      var st := LegacyTweet(params, data);
      && st.likes == Or(Get(data, "likes"), Get(data, "favorite_count")) && Truthy(st.likes)
      && (Truthy(st.retweets) || st.retweets == Num(0))
      && (Truthy(st.replies) || st.replies == Num(0))
      && (Truthy(st.views) || st.views == Str("N/A"))
      && st.id == Param(params, "id")
    ensures LegacyStats(true, false, params, data).Success?
    ensures LegacyStats(true, false, params, data).value.Some? ==> LegacyStats(true, false, params, data).value.value.TweetStats?
  {
  }

  /**
   * Step 1 for a profile URL: the flat profile shape is recognised exactly when
   * `followers_count || sub_count` is truthy, and followers is that value.
   */
  lemma LegacyProfileGate(params: map<string, string>, data: Json)
    requires !Nullish(data)
    ensures (LegacyStats(false, true, params, data) == Success(Some(LegacyProfile(params, data))))
      <==> Truthy(Or(Get(data, "followers_count"), Get(data, "sub_count")))
    ensures LegacyStats(false, true, params, data) == Success(Some(LegacyProfile(params, data))) ==>
      LegacyProfile(params, data).followers == Or(Get(data, "followers_count"), Get(data, "sub_count"))
    ensures LegacyStats(false, true, params, data).Success?
    ensures LegacyStats(false, true, params, data).value.Some? ==> LegacyStats(false, true, params, data).value.value.ProfileStats?
  {
  }

  /** No URL kind, no flat shape: a URL that is neither kind never gets a step-1 result. */
  lemma LegacyNeedsUrlKind(params: map<string, string>, data: Json)
    ensures LegacyStats(false, false, params, data) == Success(None)
  {
  }

  /**
   * Step 2 runs only when step 1 found nothing, and then gives the same result
   * for a tweet URL and for a profile URL.
   */
  lemma GraphQLOnlyAfterLegacy(isTweet: bool, isProfile: bool, params: map<string, string>, data: Json)
    ensures LegacyStats(isTweet, isProfile, params, data).Success? && LegacyStats(isTweet, isProfile, params, data).value.Some?
      ==> ParseStats(isTweet, isProfile, params, data) == LegacyStats(isTweet, isProfile, params, data)
    ensures LegacyStats(isTweet, isProfile, params, data) == Success(None)
      ==> ParseStats(isTweet, isProfile, params, data) == Success(GraphQLStats(params, data))
    ensures LegacyStats(isTweet, isProfile, params, data).Failure?
      ==> ParseStats(isTweet, isProfile, params, data) == LegacyStats(isTweet, isProfile, params, data)
  {
  }

  /** Step 2: with both a user result and a tweet result carrying `legacy`, the tweet wins. */
  lemma TweetResultWins(params: map<string, string>, data: Json)
    requires HasLegacy(UserResult(data)) && HasLegacy(TweetResult(data))
    ensures GraphQLStats(params, data) == Some(GraphQLTweet(TweetResult(data)))
    ensures GraphQLStats(params, data).value.TweetStats?
  {
  }

  /** A GraphQL tweet result is reported even for a profile URL. */
  lemma GraphQLTweetForProfileUrl()
    ensures
      var data := Obj(map["tweetResult" := Obj(map["result" := Obj(map["legacy" := Obj(map["favorite_count" := Num(5)])])])]);
      ParseStats(false, true, map["screenname" := "a"], data).value.value.TweetStats?
  {
    var legacy := Obj(map["favorite_count" := Num(5)]);
    var result := Obj(map["legacy" := legacy]);
    var data := Obj(map["tweetResult" := Obj(map["result" := result])]);
    assert Get(data, "followers_count") == Undefined;
    assert Path(data, ["data", "tweetResult", "result"]) == Undefined by {
      PathOfNullish(Undefined, ["tweetResult", "result"]);
    }
    assert Path(data, ["tweetResult", "result"]) == result;
    assert TweetResult(data) == result;
  }

  /**
   * After the call: an error response passes its status through, a failure
   * without a response (or a TypeError on a null payload) is a 500, and a
   * payload no step recognises is the 500 "unknown format" reply.
   */
  lemma ReplyAfterCall(isTweet: bool, isProfile: bool, params: map<string, string>, upstream: AxiosOutcome)
    ensures upstream.ErrorResponse? ==>
      ReplyToUpstream(isTweet, isProfile, params, upstream) == Reply(upstream.status, ErrorDetailsBody("API request failed", upstream.data))
    ensures upstream.NoResponse? ==>
      ReplyToUpstream(isTweet, isProfile, params, upstream) == InternalError(upstream.message)
    ensures upstream.Resolved? && ParseStats(isTweet, isProfile, params, upstream.data) == Success(None) ==>
      ReplyToUpstream(isTweet, isProfile, params, upstream) == Reply(500, ErrorDetailsBody(UnknownFormat, Str(UnknownFormatDetails)))
    ensures upstream.Resolved? && Nullish(upstream.data) && (isTweet || isProfile) ==>
      ReplyToUpstream(isTweet, isProfile, params, upstream)
        == InternalError(TypeErrorMessage(upstream.data, if isTweet then "likes" else "followers_count"))
    ensures ReplyToUpstream(isTweet, isProfile, params, upstream).status == 200 <==>
      (upstream.Resolved? && ParseStats(isTweet, isProfile, params, upstream.data).Success?
        && ParseStats(isTweet, isProfile, params, upstream.data).value.Some?)
      || (upstream.ErrorResponse? && upstream.status == 200)
  {
  }

  /** Example: the "x.com/" handle is taken even though "twitter.com/" comes first. */
  lemma XComBeforeTwitterCom()
    ensures ProfileHandle("twitter.com/al?x.com/bo") == Some("bo")
  {
    var s := "twitter.com/al?x.com/bo";
    assert PrefixedRunAt(s, 15, "x.com/", WordChars);
    var before := "twitter.com/al?";
    assert s == before + "x.com/bo";
    assert 'x' !in before;
    forall j | 0 <= j < 15 ensures !PrefixedRunAt(s, j, "x.com/", WordChars) {
      assert s[j] == before[j];
      assert s[j..j + 6][0] == s[j] != 'x';
    }
    LeftmostIsMatchCapture(s, "x.com/", WordChars, "bo");
  }
}
