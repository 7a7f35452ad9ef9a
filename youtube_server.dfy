/**
 * The `/api/video-stats?videoId=...` route of the YouTube proxy: presence
 * and configuration checks, the Data API request, and, once the fetch has
 * settled, the non-ok, zero-items and projection outcomes.
 */
module YouTubeServer {
  import opened Wrappers
  import opened Js
  import opened Http

  const VideoIdRequired := "Video ID is required"
  const KeyMissing := "Server configuration error: API Key missing"
  const FetchFailed := "Failed to fetch data from YouTube API"
  const NotFound := "Video not found"

  /** Reply at once, or fetch `apiUrl`. */
  datatype Decision =
    | Respond(reply: Reply)
    | Call(apiUrl: string)

  /** The handler up to the fetch. `key` is YOUTUBE_API_KEY; the id is put into the URL as it is. */
  function Route(videoId: Option<string>, key: Option<string>): Decision {
    if videoId.None? || videoId.value == "" then Respond(Reply(400, ErrorBody(VideoIdRequired)))
    else if !EnvSet(key) then Respond(Reply(500, ErrorBody(KeyMissing)))
    else Call("https://www.googleapis.com/youtube/v3/videos?part=snippet,statistics&id="
              + videoId.value + "&key=" + key.value)
  }

  /** The fixed projection the route replies with. */
  datatype VideoStats = VideoStats(
    title: Json, channelTitle: Json, thumbnailUrl: Json, publishedAt: Json,
    viewCount: Json, likeCount: Json, commentCount: Json)

  function StatsBody(v: VideoStats): Json {
    Obj(map[
      "title" := v.title, "channelTitle" := v.channelTitle, "thumbnailUrl" := v.thumbnailUrl,
      "publishedAt" := v.publishedAt, "viewCount" := v.viewCount, "likeCount" := v.likeCount,
      "commentCount" := v.commentCount])
  }

  /** `v.length`: arrays and strings have one, objects may have a `length` property. */
  function LengthOf(v: Json): Result<Json> {
    if Nullish(v) then Failure(TypeErrorMessage(v, "length"))
    else match v
      case Arr(a) => Success(Num(|a|))
      case Str(s) => Success(Num(|s|))
      case _ => Success(Get(v, "length"))
  }

  /** `v[0]`. */
  function FirstElement(v: Json): Result<Json> {
    if Nullish(v) then Failure(TypeErrorMessage(v, "0"))
    else match v
      case Arr(a) => Success(if a == [] then Undefined else a[0])
      case Str(s) => Success(if s == "" then Undefined else Str([s[0]]))
      case _ => Success(Get(v, "0"))
  }

  /** `thumbnails.high?.url || thumbnails.medium?.url || thumbnails.default?.url`. */
  function Thumbnail(thumbnails: Json): Result<Json> {
    var high :- Read(thumbnails, "high");
    Success(Or(Or(Get(high, "url"), Path(thumbnails, ["medium", "url"])), Path(thumbnails, ["default", "url"])))
  }

  /** The object literal built from `video = items[0]`, in its evaluation order. */
  function Project(video: Json): Result<VideoStats> {
    var snippet :- Read(video, "snippet");
    var statistics := Get(video, "statistics");   // `video` is not nullish any more
    var title :- Read(snippet, "title");
    var thumbnailUrl :- Thumbnail(Get(snippet, "thumbnails"));
    var viewCount :- Read(statistics, "viewCount");
    Success(VideoStats(
      title, Get(snippet, "channelTitle"), thumbnailUrl, Get(snippet, "publishedAt"),
      viewCount, Get(statistics, "likeCount"), Get(statistics, "commentCount")))
  }

  /** The body of the `try` after the fetch; a Failure is an exception with that message. */
  function Evaluate(ok: bool, data: Json): Result<Reply> {
    if !ok then
      var error :- Read(data, "error");
      Failure(ToJsString(Or(Get(error, "message"), Str(FetchFailed))))
    else
      var items :- Read(data, "items");
      var length :- LengthOf(items);
      if length == Num(0) then Success(Reply(404, ErrorBody(NotFound)))
      else
        var video :- FirstElement(items);
        var stats :- Project(video);
        Success(Reply(200, StatsBody(stats)))
  }

  /** Everything after the fetch: every exception becomes a 500 carrying its message. */
  function ReplyToFetch(outcome: FetchOutcome): Reply {
    match outcome
    case Rejected(message) => Reply(500, ErrorBody(message))
    case Received(ok, data) =>
      match Evaluate(ok, data)
      case Failure(message) => Reply(500, ErrorBody(message))
      case Success(r) => r
  }

  /** The whole handler, given what the fetch would settle with. */
  function VideoStatsReply(videoId: Option<string>, key: Option<string>, outcome: FetchOutcome): Reply {
    match Route(videoId, key)
    case Respond(r) => r
    case Call(_) => ReplyToFetch(outcome)
  }

  /** A missing id is a 400 whatever the key; then a missing key is a 500. */
  lemma PresenceChecks(videoId: Option<string>, key: Option<string>, outcome: FetchOutcome)
    ensures videoId.None? || videoId.value == "" ==>
      VideoStatsReply(videoId, key, outcome) == Reply(400, ErrorBody(VideoIdRequired))
    ensures videoId.Some? && videoId.value != "" && !EnvSet(key) ==>
      VideoStatsReply(videoId, key, outcome) == Reply(500, ErrorBody(KeyMissing))
    ensures videoId.Some? && videoId.value != "" && EnvSet(key) ==>
      VideoStatsReply(videoId, key, outcome) == ReplyToFetch(outcome)
  {
  }

  /** A non-ok response is a 500 with `data.error.message`, or the fixed text when that is falsy. */
  lemma NotOkIs500(data: Json)
    requires !Nullish(data)
    ensures ReplyToFetch(Received(false, data)).status == 500
    ensures !Truthy(Path(data, ["error", "message"])) ==>
      ReplyToFetch(Received(false, data)) == Reply(500, ErrorBody(FetchFailed))
    ensures forall m :: Path(data, ["error", "message"]) == Str(m) && m != "" ==>
      ReplyToFetch(Received(false, data)) == Reply(500, ErrorBody(m))
  {
  }

  /** No items: 404. */
  lemma ZeroItemsIs404(data: Json)
    requires Get(data, "items") == Arr([])
    ensures ReplyToFetch(Received(true, data)) == Reply(404, ErrorBody(NotFound))
  {
  }

  /** Only `items[0]` is looked at: the items after it never change the reply. */
  lemma OnlyFirstItem(data: Json, items: seq<Json>)
    requires Get(data, "items") == Arr(items) && |items| >= 1
    ensures ReplyToFetch(Received(true, data)) == ReplyToFetch(Received(true, Obj(map["items" := Arr([items[0]])])))
  {
    var other := Obj(map["items" := Arr([items[0]])]);
    assert Get(other, "items") == Arr([items[0]]);
  }

  /**
   * For a well-formed first item the reply is the projection: title,
   * channelTitle and publishedAt from the snippet, the three counts passed
   * through unchanged from the statistics.
   */
  lemma Projection(data: Json, items: seq<Json>)
    requires Get(data, "items") == Arr(items) && |items| >= 1
    requires var video := items[0];
      && !Nullish(Get(video, "snippet")) && !Nullish(Get(video, "statistics"))
      && !Nullish(Get(Get(video, "snippet"), "thumbnails"))
    ensures var video := items[0];
      var snippet := Get(video, "snippet");
      var statistics := Get(video, "statistics");
      ReplyToFetch(Received(true, data)) == Reply(200, StatsBody(VideoStats(
        Get(snippet, "title"), Get(snippet, "channelTitle"), Thumbnail(Get(snippet, "thumbnails")).value,
        Get(snippet, "publishedAt"), Get(statistics, "viewCount"), Get(statistics, "likeCount"),
        Get(statistics, "commentCount"))))
  {
  }

  /** `thumbnailUrl` is the first truthy of high.url and medium.url, else default.url. */
  lemma ThumbnailFallback(thumbnails: Json)
    requires !Nullish(thumbnails)
    ensures var high := Path(thumbnails, ["high", "url"]);
      var medium := Path(thumbnails, ["medium", "url"]);
      var default := Path(thumbnails, ["default", "url"]);
      Thumbnail(thumbnails) == Success(if Truthy(high) then high else if Truthy(medium) then medium else default)
  {
  }

  /**
   * The messages thrown into the 500 for a malformed first item, in the
   * order the object literal reads it: a nullish item, a missing snippet,
   * missing thumbnails, missing statistics.
   */
  lemma MalformedItem(data: Json, items: seq<Json>)
    requires Get(data, "items") == Arr(items) && |items| >= 1
    ensures var video := items[0];
      Nullish(video) ==>
        ReplyToFetch(Received(true, data)) == Reply(500, ErrorBody(TypeErrorMessage(video, "snippet")))
    ensures var video := items[0]; var snippet := Get(video, "snippet");
      !Nullish(video) && Nullish(snippet) ==>
        ReplyToFetch(Received(true, data)) == Reply(500, ErrorBody(TypeErrorMessage(snippet, "title")))
    ensures var video := items[0]; var snippet := Get(video, "snippet");
      !Nullish(video) && !Nullish(snippet) && Nullish(Get(snippet, "thumbnails")) ==>
        ReplyToFetch(Received(true, data)) == Reply(500, ErrorBody(TypeErrorMessage(Get(snippet, "thumbnails"), "high")))
    ensures var video := items[0]; var snippet := Get(video, "snippet"); var statistics := Get(video, "statistics");
      !Nullish(video) && !Nullish(snippet) && !Nullish(Get(snippet, "thumbnails")) && Nullish(statistics) ==>
        ReplyToFetch(Received(true, data)) == Reply(500, ErrorBody(TypeErrorMessage(statistics, "viewCount")))
  {
  }
}
