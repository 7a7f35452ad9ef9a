/**
 * The `/instagram?username=...` route of the Instagram stats proxy: presence
 * and configuration checks, the upstream request, the two recognised payload
 * shapes, the 200 "warning + raw" fallback, and error pass-through.
 */
module InstagramServer {
  import opened Wrappers
  import opened Js
  import opened Http

  const UsernameRequired := "Username is required"
  const KeyMissing := "Server API key not configured"
  const RawWarning := "Could not parse standard stats. Raw response below."

  /** Reply at once, or call `apiUrl` with `params`. */
  datatype Decision =
    | Respond(reply: Reply)
    | Call(apiUrl: string, params: map<string, string>)

  /** The handler up to the upstream call. `key` and `host` are RAPIDAPI_KEY and RAPIDAPI_HOST. */
  function Route(username: Option<string>, key: Option<string>, host: Option<string>): Decision {
    if username.None? || username.value == "" then Respond(Reply(400, ErrorBody(UsernameRequired)))
    else if !EnvSet(key) then Respond(Reply(500, ErrorBody(KeyMissing)))
    else Call("https://" + EnvText(host) + "/ig/info_username/", map["user" := username.value])
  }

  /** The normalised profile the route replies with. */
  datatype Profile = Profile(
    username: Json, full_name: Json, biography: Json, followers: Json,
    following: Json, posts: Json, is_private: Json, profile_pic_url: Json)

  function ProfileBody(p: Profile): Json {
    Obj(map[
      "username" := p.username, "full_name" := p.full_name, "biography" := p.biography,
      "followers" := p.followers, "following" := p.following, "posts" := p.posts,
      "is_private" := p.is_private, "profile_pic_url" := p.profile_pic_url])
  }

  /** Structure A, read from `data.user`. */
  function ShapeA(user: Json): Profile {
    Profile(
      Get(user, "username"),
      Get(user, "full_name"),
      Get(user, "biography"),
      Or(Get(user, "follower_count"), Get(user, "followers")),
      Or(Get(user, "following_count"), Get(user, "following")),
      Or(Get(user, "media_count"), Get(user, "posts")),
      Get(user, "is_private"),
      Or(Get(user, "profile_pic_url"), Path(user, ["hd_profile_pic_url_info", "url"])))
  }

  /** Structure B, read from `data.data.user`. */
  function ShapeB(user: Json): Profile {
    Profile(
      Get(user, "username"),
      Get(user, "full_name"),
      Get(user, "biography"),
      Path(user, ["edge_followed_by", "count"]),
      Path(user, ["edge_follow", "count"]),
      Path(user, ["edge_owner_to_timeline_media", "count"]),
      Get(user, "is_private"),
      Get(user, "profile_pic_url_hd"))
  }

  /**
   * The log line before parsing: `JSON.stringify(data).substring(0, 200)`.
   * `JSON.stringify(undefined)` is undefined, so that call throws.
   */
  function LogPreview(data: Json): Result<()> {
    if data.Undefined? then Failure(TypeErrorMessage(data, "substring")) else Success(())
  }

  /** Structure A if `data.user` is truthy, else structure B if `data.data.user` is. */
  function ParseProfile(data: Json): Result<Option<Profile>> {
    var _ :- LogPreview(data);
    var user :- Read(data, "user");
    if Truthy(user) then Success(Some(ShapeA(user)))
    else
      var inner := Get(data, "data");
      if Truthy(inner) && Truthy(Get(inner, "user")) then Success(Some(ShapeB(Get(inner, "user"))))
      else Success(None)
  }

  function InternalError(message: string): Reply {
    Reply(500, ErrorDetailsBody("Internal Server Error", Str(message)))
  }

  /**
   * Everything after the upstream call; None when no reply is sent at all:
   * reading `error.response.data.message` on a null body throws inside the
   * `catch` block, and Express never answers that request.
   */
  function ReplyToUpstream(upstream: AxiosOutcome): Option<Reply> {
    match upstream
    case Resolved(data) =>
      (match ParseProfile(data)
       case Failure(message) => Some(InternalError(message))
       case Success(None) => Some(Reply(200, Obj(map["warning" := Str(RawWarning), "raw" := data])))
       case Success(Some(p)) => Some(Reply(200, ProfileBody(p))))
    case ErrorResponse(status, statusText, body) =>
      if Nullish(body) then None
      else Some(Reply(status, Obj(map[
        "error" := Str("API request failed"),
        "message" := Or(Get(body, "message"), Str(statusText)),
        "details" := body])))
    case NoResponse(message) => Some(InternalError(message))
  }

  /** The whole handler, given what the upstream call would settle with. */
  function InstagramReply(username: Option<string>, key: Option<string>, host: Option<string>, upstream: AxiosOutcome): Option<Reply> {
    match Route(username, key, host)
    case Respond(r) => Some(r)
    case Call(_, _) => ReplyToUpstream(upstream)
  }

  /** A missing username is a 400 whatever the key; a missing key is a 500 only for a present username. */
  lemma PresenceChecks(username: Option<string>, key: Option<string>, host: Option<string>, upstream: AxiosOutcome)
    ensures username.None? || username.value == "" ==>
      InstagramReply(username, key, host, upstream) == Some(Reply(400, ErrorBody(UsernameRequired)))
    ensures username.Some? && username.value != "" && !EnvSet(key) ==>
      InstagramReply(username, key, host, upstream) == Some(Reply(500, ErrorBody(KeyMissing)))
    ensures username.Some? && username.value != "" && EnvSet(key) ==>
      Route(username, key, host) == Call("https://" + EnvText(host) + "/ig/info_username/", map["user" := username.value])
  {
  }

  /** Structure A is taken whenever `data.user` is truthy, even when `data.data.user` exists too. */
  lemma ShapeAFirst(data: Json)
    requires Truthy(Get(data, "user"))
    ensures ReplyToUpstream(Resolved(data)) == Some(Reply(200, ProfileBody(ShapeA(Get(data, "user")))))
    ensures var p := ShapeA(Get(data, "user"));
      && p.followers == Or(Get(Get(data, "user"), "follower_count"), Get(Get(data, "user"), "followers"))
      && p.following == Or(Get(Get(data, "user"), "following_count"), Get(Get(data, "user"), "following"))
      && p.posts == Or(Get(Get(data, "user"), "media_count"), Get(Get(data, "user"), "posts"))
      && (Truthy(Get(Get(data, "user"), "profile_pic_url")) ==>
            p.profile_pic_url == Get(Get(data, "user"), "profile_pic_url"))
      && (!Truthy(Get(Get(data, "user"), "profile_pic_url")) ==>
            p.profile_pic_url == Get(Get(Get(data, "user"), "hd_profile_pic_url_info"), "url"))
      && p.username == Get(Get(data, "user"), "username")
      && p.full_name == Get(Get(data, "user"), "full_name")
      && p.biography == Get(Get(data, "user"), "biography")
      && p.is_private == Get(Get(data, "user"), "is_private")
  {
  }

  /**
   * Structure B is taken exactly when `data.user` is falsy and both `data.data`
   * and `data.data.user` are truthy; a count is undefined when its edge is absent.
   */
  lemma ShapeBWhenNoUser(data: Json)
    requires !Nullish(data) && !Truthy(Get(data, "user"))
    ensures var inner := Get(data, "data");
      var user := Get(inner, "user");
      (ReplyToUpstream(Resolved(data)) == Some(Reply(200, ProfileBody(ShapeB(user)))))
        <==> (Truthy(inner) && Truthy(user))
    ensures var user := Get(Get(data, "data"), "user");
      && (Nullish(Get(user, "edge_followed_by")) ==> ShapeB(user).followers == Undefined)
      && (Nullish(Get(user, "edge_follow")) ==> ShapeB(user).following == Undefined)
      && (Nullish(Get(user, "edge_owner_to_timeline_media")) ==> ShapeB(user).posts == Undefined)
      && ShapeB(user).followers == Get(Get(user, "edge_followed_by"), "count")
      && ShapeB(user).following == Get(Get(user, "edge_follow"), "count")
      && ShapeB(user).posts == Get(Get(user, "edge_owner_to_timeline_media"), "count")
      && ShapeB(user).username == Get(user, "username")
      && ShapeB(user).full_name == Get(user, "full_name")
      && ShapeB(user).biography == Get(user, "biography")
      && ShapeB(user).is_private == Get(user, "is_private")
      && ShapeB(user).profile_pic_url == Get(user, "profile_pic_url_hd")
  {
    var inner := Get(data, "data");
    var user := Get(inner, "user");
    var raw := Reply(200, Obj(map["warning" := Str(RawWarning), "raw" := data]));
    assert ProfileBody(ShapeB(user)) != raw.body by {
      assert "username" in ProfileBody(ShapeB(user)).fields;
      assert "username" !in raw.body.fields;
    }
    if Nullish(Get(user, "edge_followed_by")) {
      PathOfNullish(Get(user, "edge_followed_by"), ["count"]);
    }
    if Nullish(Get(user, "edge_follow")) {
      PathOfNullish(Get(user, "edge_follow"), ["count"]);
    }
    if Nullish(Get(user, "edge_owner_to_timeline_media")) {
      PathOfNullish(Get(user, "edge_owner_to_timeline_media"), ["count"]);
    }
  }

  /** Neither structure: a 200 carrying the warning and the untouched payload. */
  lemma RawFallback(data: Json)
    requires !Nullish(data) && !Truthy(Get(data, "user"))
    requires !(Truthy(Get(data, "data")) && Truthy(Get(Get(data, "data"), "user")))
    ensures ReplyToUpstream(Resolved(data)) == Some(Reply(200, Obj(map["warning" := Str(RawWarning), "raw" := data])))
  {
  }

  /**
   * An error response passes its status through with `data.message ||
   * statusText`; a failure without a response is a 500.
   */
  lemma ErrorPassThrough(upstream: AxiosOutcome)
    ensures upstream.ErrorResponse? && !Nullish(upstream.data) ==>
      && ReplyToUpstream(upstream).Some?
      && ReplyToUpstream(upstream).value.status == upstream.status
      && Get(ReplyToUpstream(upstream).value.body, "message") == Or(Get(upstream.data, "message"), Str(upstream.statusText))
      && Get(ReplyToUpstream(upstream).value.body, "details") == upstream.data
    ensures upstream.ErrorResponse? && Nullish(upstream.data) ==> ReplyToUpstream(upstream).None?
    ensures upstream.NoResponse? ==> ReplyToUpstream(upstream) == Some(InternalError(upstream.message))
  {
  }

  /** A null payload makes the `data.user` read throw into the generic 500. */
  lemma NullPayload()
    ensures ReplyToUpstream(Resolved(Null)) == Some(InternalError("Cannot read properties of null (reading 'user')"))
  {
    assert TypeErrorMessage(Null, "user") == "Cannot read properties of null (reading 'user')";
  }

  /** An undefined payload already throws in the log line, before `data.user` is read. */
  lemma UndefinedPayload()
    ensures ReplyToUpstream(Resolved(Undefined)) == Some(InternalError("Cannot read properties of undefined (reading 'substring')"))
  {
    assert TypeErrorMessage(Undefined, "substring") == "Cannot read properties of undefined (reading 'substring')";
  }

  /** The documented structure-A example: `{user: {username: "a", follower_count: 10}}` reports 10 followers. */
  lemma ShapeAExample()
    ensures var a := Obj(map["user" := Obj(map["username" := Str("a"), "follower_count" := Num(10)])]);
      ParseProfile(a) == Success(Some(ShapeA(Get(a, "user"))))
      && ShapeA(Get(a, "user")).followers == Num(10) && ShapeA(Get(a, "user")).username == Str("a")
  {
    var user := Obj(map["username" := Str("a"), "follower_count" := Num(10)]);
    var a := Obj(map["user" := user]);
    assert Get(a, "user") == user;
    assert Get(user, "follower_count") == Num(10);
  }

  /** The documented structure-B example: `{data: {user: {edge_followed_by: {count: 10}}}}` reports 10 followers. */
  lemma ShapeBExample()
    ensures var b := Obj(map["data" := Obj(map["user" := Obj(map["edge_followed_by" := Obj(map["count" := Num(10)])])])]);
      ParseProfile(b) == Success(Some(ShapeB(Get(Get(b, "data"), "user"))))
      && ShapeB(Get(Get(b, "data"), "user")).followers == Num(10)
  {
    var edge := Obj(map["count" := Num(10)]);
    var user := Obj(map["edge_followed_by" := edge]);
    var inner := Obj(map["user" := user]);
    var b := Obj(map["data" := inner]);
    assert Get(b, "user") == Undefined;
    assert Get(b, "data") == inner;
    assert Get(inner, "user") == user;
    assert Path(user, ["edge_followed_by", "count"]) == Path(edge, ["count"]) == Num(10);
  }
}
