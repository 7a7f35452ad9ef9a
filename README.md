# Social-stats proxies, dashboards and ID-text check, in Dafny

This project models the decision logic of the repository's three stats
proxies, its two dashboards, and the text half of its ID verifier:

- **Twitter/X proxy** (`GET /twitter?url=...`): URL presence check, the
  tweet-or-profile classification, the API-key check, the tweet-id and
  handle regexes, the upstream endpoint and parameters, and the three-step
  payload parser (flat shapes gated by URL kind, then GraphQL shapes in
  which a tweet result overrides a profile result, then the "unknown
  format" 500). Upstream errors are passed through.
- **Instagram proxy** (`GET /instagram?username=...`): presence checks, the
  upstream call, payload shape A (`data.user`), shape B (`data.data.user`),
  the 200 "warning + raw" fallback, and error pass-through.
- **YouTube proxy** (`GET /api/video-stats?videoId=...`): presence checks,
  the Data API URL, the non-ok 500, the zero-items 404, and the projection
  of `items[0]` with its thumbnail fallback chain.
- **YouTube dashboard**: `extractVideoId`, read as the regular expression
  engine reads it. The greedy `^.*` picks the rightmost marker reachable
  before the first line terminator, and the `[^#&?]*` run after it must be
  exactly 11 characters long. Also modelled: the checks in `analyzeVideo`
  before a request is made, how the settled request is shown, and the
  falsy branch of `formatNumber`.
- **Instagram dashboard**: the username clean-up in `getStats`, the request
  URL, how the proxy's answer is classified, and the falsy branch of
  `formatNumber`.
- **ID verifier**: `validate_id_details` and the `ocr_text_found` and
  `masked_text_sample` fields of `verify_user`. The verifier does
  case-insensitive keyword detection and masks every run of eight or more
  digits with `re.sub(r'\d{8,}', '********', text)`.

### Modelling choices

**JavaScript values.**
- JavaScript values are the `Js.Json` datatype. It has `Undefined` and `Null`, and numbers are integers.
- `Js.Get` is property access: it gives `Undefined` when the value is not an object or the key is absent.
- `Js.Truthy` is JavaScript truthiness, and `Js.Or` is `||` (the first truthy operand, else the last one).
- `Js.Path` is an optional chain `a?.b?.c`.
- `Js.Read` is a property read that may throw. On `null` or `undefined` it gives a `Failure` carrying V8's message `Cannot read properties of null (reading 'k')`. Each handler's `catch` block turns such a failure into the reply that block sends.

**Inputs and outputs.**
- Upstream calls are not performed. Their outcome is an input.
- An axios call gives a payload, an error response (status, statusText, body), or a failure without a response.
- A `fetch` gives `ok` together with the parsed body, or a rejection with its message.
- Query parameters are `Option<string>`. Environment variables are also `Option<string>`, and `undefined` counts as unset.
- Replies are a status and a JSON body.

**The two mixed handlers.** These two update locals step by step in the source:
- the Twitter handler's `apiUrl`, `params` and `stats`;
- the Instagram dashboard's `username`.

Each is written twice:
- a `method` with those locals, whose `ensures` equates its result with a specification function;
- the specification function, which the lemmas are about.

**Regular expressions.**
- `s.match(/prefix(k+)/)` is the leftmost start position at which `prefix` is followed by a class-`k` character. The capture is the maximal run there (`Text.MatchCapture`). It is characterised by `Text.IsLeftmostCapture`.
- Python's `re.sub` is modelled twice:
  - as the engine's scan (`IdVerification.ReSub`);
  - as a reference definition that splits the text into maximal digit runs and single other characters (`IdVerification.MaskRuns`).
  The two are proved equal.

## Model

| member | source | states |
|---|---|---|
| TwitterServer.Route | twitter-stats/server/index.js:14-58 | Definition (no contract of its own): the handler up to the upstream call, with its checks in source order (url, key, URL kind, id or handle pattern) and the chosen endpoint and parameters; its properties are stated by MissingUrlFirst, KeyBeforeUrlShape, Classification, TweetRoute and ProfileRoute |
| TwitterServer.LegacyStats | twitter-stats/server/index.js:83-103 | Definition: parser step 1, the flat tweet shape for a tweet URL and the flat profile shape for a profile URL, where reading a property of a null payload throws; stated by LegacyTweetGate, LegacyProfileGate and LegacyNeedsUrlKind |
| TwitterServer.GraphQLStats | twitter-stats/server/index.js:106-139 | Definition: parser step 2, whatever the URL kind, with a tweet result taking precedence over a user result; stated by TweetResultWins and GraphQLTweetForProfileUrl |
| TwitterServer.ParseStats | twitter-stats/server/index.js:83-139 | Definition: step 1, then step 2 only when step 1 found nothing; stated by GraphQLOnlyAfterLegacy |
| TwitterServer.ReplyToUpstream | twitter-stats/server/index.js:62-160 | Definition: the reply once the upstream call has settled, including the `catch` block; stated by ReplyAfterCall |
| TwitterServer.TwitterReply | twitter-stats/server/index.js:14-160 | Definition: the whole handler as a priority function of the request, the environment and the upstream outcome; HandleTwitter is proved to compute it, and MissingUrlFirst and KeyBeforeUrlShape state its properties |
| TwitterServer.HandleTwitter | twitter-stats/server/index.js:14-160 | The handler as written, filling `apiUrl`, `params` and `stats` in turn and letting a GraphQL tweet overwrite a GraphQL profile, always replies with what the priority function TwitterReply gives |
| TwitterServer.MissingUrlFirst | twitter-stats/server/index.js:16-18 | A missing or empty url is a 400 "URL is required", whatever the key or the upstream |
| TwitterServer.KeyBeforeUrlShape | twitter-stats/server/index.js:24-26 | Without a key every non-empty URL gets the 500 "Server API key not configured", including URLs that would be invalid tweet or profile URLs |
| TwitterServer.Classification | twitter-stats/server/index.js:21-22 | A "/status/" URL is routed as a tweet and never as a profile (or is an invalid tweet URL); otherwise "twitter.com" or "x.com" makes it a profile (or an invalid profile URL); otherwise 400 "Could not determine if URL is tweet or profile" |
| TwitterServer.TweetRoute | twitter-stats/server/index.js:40-48 | The 400 "Invalid Tweet URL" is given iff no "status/" is followed by a digit; otherwise the id is the leftmost maximal digit run, non-empty and all digits, and the call is tweet.php with `{id}` |
| TwitterServer.ProfileRoute | twitter-stats/server/index.js:49-55 | The 400 "Invalid Profile URL" is given iff neither "x.com/" nor "twitter.com/" is followed by a word character; the handle is the leftmost "x.com/" capture when there is one, else the leftmost "twitter.com/" capture, non-empty and all word characters; the call is screenname.php with `{screenname}` |
| TwitterServer.XComBeforeTwitterCom | twitter-stats/server/index.js:50 | For "twitter.com/al?x.com/bo" the handle is "bo": the x.com pattern is tried first even when twitter.com comes first in the URL |
| TwitterServer.LegacyTweetGate | twitter-stats/server/index.js:83-93 | For a tweet URL the flat tweet shape is taken iff `likes \|\| favorite_count` is truthy; then likes is that value, retweets and replies are truthy or 0, views is truthy or 'N/A', and id is the request's id |
| TwitterServer.LegacyProfileGate | twitter-stats/server/index.js:94-103 | For a profile URL the flat profile shape is taken iff `followers_count \|\| sub_count` is truthy, and followers is that value |
| TwitterServer.LegacyNeedsUrlKind | twitter-stats/server/index.js:83-103 | A URL that is neither kind never yields a flat-shape result |
| TwitterServer.GraphQLOnlyAfterLegacy | twitter-stats/server/index.js:106-139 | The GraphQL step decides only when the flat step found nothing, and it does not depend on the URL kind; a flat result or a thrown read is kept |
| TwitterServer.TweetResultWins | twitter-stats/server/index.js:109-138 | When both the user result and the tweet result carry `legacy`, the reported stats are the tweet's |
| TwitterServer.GraphQLTweetForProfileUrl | twitter-stats/server/index.js:122-138 | A payload with a GraphQL tweet result is reported as tweet stats even for a profile URL |
| TwitterServer.ReplyAfterCall | twitter-stats/server/index.js:141-160 | After the call: an error response keeps its status with "API request failed" and its body as details; a failure without a response is the 500 "Internal Server Error"; an unrecognised payload is the 500 "Unknown API response format…"; a null payload throws on its first read; the reply is 200 exactly when some shape was recognised (or the error response itself was a 200) |
| InstagramServer.Route | instagram-stats/server/index.js:14-43 | Definition: the username and key checks and the upstream URL and parameters; stated by PresenceChecks |
| InstagramServer.ShapeA | instagram-stats/server/index.js:53-62 | Definition: structure A read from `data.user`; stated by ShapeAFirst and ShapeAExample |
| InstagramServer.ShapeB | instagram-stats/server/index.js:66-75 | Definition: structure B read from `data.data.user`; stated by ShapeBWhenNoUser and ShapeBExample |
| InstagramServer.ParseProfile | instagram-stats/server/index.js:45-85 | Definition: the log line (which throws on an undefined payload), then structure A, then structure B, else nothing; stated by ShapeAFirst, ShapeBWhenNoUser, RawFallback, NullPayload and UndefinedPayload |
| InstagramServer.ReplyToUpstream | instagram-stats/server/index.js:45-99 | Definition: the reply once the upstream call has settled, or none when the `catch` block itself throws; stated by RawFallback and ErrorPassThrough |
| InstagramServer.InstagramReply | instagram-stats/server/index.js:14-100 | Definition: the whole handler, given the upstream outcome; stated by PresenceChecks |
| InstagramServer.PresenceChecks | instagram-stats/server/index.js:14-43 | A missing username is a 400 whatever the key; a missing key is a 500 only for a present username; otherwise the call goes to `https://HOST/ig/info_username/` with `{user}` |
| InstagramServer.ShapeAFirst | instagram-stats/server/index.js:52-62 | Structure A is replied whenever `data.user` is truthy, even if `data.data.user` exists; followers, following and posts are the `\|\|` of the two field names, profile_pic_url falls back to `hd_profile_pic_url_info.url`, and username, full_name, biography and is_private are copied |
| InstagramServer.ShapeBWhenNoUser | instagram-stats/server/index.js:65-76 | With `data.user` falsy, structure B is replied iff `data.data` and `data.data.user` are both truthy; followers, following and posts are the `count` of their edges (undefined when the edge is absent), profile_pic_url is `profile_pic_url_hd`, and username, full_name, biography and is_private are copied |
| InstagramServer.RawFallback | instagram-stats/server/index.js:78-85 | When neither structure matches, the reply is a 200 carrying the warning and exactly the upstream payload as `raw` |
| InstagramServer.ErrorPassThrough | instagram-stats/server/index.js:89-99 | An error response keeps its status, with `message` = `data.message \|\| statusText` and the body as details; a null body throws inside the catch and no reply is sent; a failure without a response is the 500 "Internal Server Error" |
| InstagramServer.NullPayload | instagram-stats/server/index.js:45-99 | A null payload gives the 500 whose details are the TypeError of reading `user` |
| InstagramServer.UndefinedPayload | instagram-stats/server/index.js:45-99 | An undefined payload already throws in the log line, on `substring` |
| InstagramServer.ShapeAExample | instagram-stats/server/index.js:51-57 | `{user: {username: "a", follower_count: 10}}` is read as structure A with 10 followers |
| InstagramServer.ShapeBExample | instagram-stats/server/index.js:64-70 | `{data: {user: {edge_followed_by: {count: 10}}}}` is read as structure B with 10 followers |
| YouTubeServer.Route | youtube/server.js:35-46 | Definition: the videoId and key checks and the Data API URL; stated by PresenceChecks |
| YouTubeServer.Thumbnail | youtube/server.js:66 | Definition: the thumbnail fallback chain, which throws on nullish thumbnails; stated by ThumbnailFallback |
| YouTubeServer.Project | youtube/server.js:59-71 | Definition: the result object built from `items[0]` in evaluation order; stated by Projection and MalformedItem |
| YouTubeServer.Evaluate | youtube/server.js:51-73 | Definition: the `try` body after the fetch, with each thrown error as a Failure; stated by NotOkIs500, ZeroItemsIs404 and OnlyFirstItem |
| YouTubeServer.ReplyToFetch | youtube/server.js:48-77 | Definition: every exception, including a rejected fetch, becomes a 500 carrying its message; stated by NotOkIs500 and MalformedItem |
| YouTubeServer.VideoStatsReply | youtube/server.js:35-77 | Definition: the whole handler, given the fetch outcome; stated by PresenceChecks |
| YouTubeServer.PresenceChecks | youtube/server.js:35-46 | A missing videoId is a 400 "Video ID is required" whatever the key; then a missing key is the 500 configuration error; otherwise the reply is decided by the fetch |
| YouTubeServer.NotOkIs500 | youtube/server.js:51-77 | A non-ok response is always a 500, carrying `data.error.message` when that is a non-empty string, and "Failed to fetch data from YouTube API" when it is falsy |
| YouTubeServer.ZeroItemsIs404 | youtube/server.js:55-57 | An empty `items` array is the 404 "Video not found" |
| YouTubeServer.OnlyFirstItem | youtube/server.js:59 | The reply depends only on `items[0]`: dropping every later item changes nothing |
| YouTubeServer.Projection | youtube/server.js:59-73 | For a well-formed first item the reply is 200 with title, channelTitle and publishedAt from the snippet and the three counts passed through unchanged from the statistics |
| YouTubeServer.ThumbnailFallback | youtube/server.js:66 | thumbnailUrl is high.url if truthy, else medium.url if truthy, else default.url |
| YouTubeServer.MalformedItem | youtube/server.js:59-77 | For any non-empty `items`: a nullish first item gives the 500 with the TypeError of reading `snippet`; else a nullish snippet, of reading `title`; else nullish thumbnails, of reading `high`; else nullish statistics, of reading `viewCount` |
| YouTubeClient.ExtractVideoId | youtube/public/script.js:65-69 | A returned id is exactly 11 characters long and has no '#', '&' or '?' |
| YouTubeClient.AtMostOneMarker | youtube/public/script.js:66 | The six alternatives of the marker group begin with six different characters, so at most one matches at any position |
| YouTubeClient.NoMarkerNoId | youtube/public/script.js:66-68 | When no marker occurs before the first line terminator, the result is null |
| YouTubeClient.RightmostMarkerDecides | youtube/public/script.js:66-68 | At the greedy marker position (reachable by `^.*` and with no reachable marker to its right) the result is the run after it if that run has 11 characters, and null otherwise, whatever an earlier marker would give |
| YouTubeClient.IdComesFromGreedyMarker | youtube/public/script.js:66-68 | Every id returned is the run after a greedy marker position |
| YouTubeClient.LaterMarkerWins | youtube/public/script.js:66-68 | "youtu.be/abcdefghijk&v=xyz" gives null: the later "&v=" hides the 11 characters after "youtu.be/" |
| YouTubeClient.ShortLinkExample | youtube/public/script.js:66-68 | "youtu.be/abcdfghijkl" gives "abcdfghijkl" |
| YouTubeClient.StartAnalysis | youtube/public/script.js:31-50 | Definition: what `analyzeVideo` does with the input before any request; stated by StartAnalysisChecks |
| YouTubeClient.AnalysisResult | youtube/public/script.js:49-63 | Definition: what the page shows once the request has settled, with a nullish payload throwing on its first read; stated by NotOkShowsMessage |
| YouTubeClient.StartAnalysisChecks | youtube/public/script.js:31-50 | Blank input shows "Please enter a YouTube URL" and an input without an id shows "Invalid YouTube URL…"; a request is made iff neither happens, and then for an 11-character id |
| YouTubeClient.ShowError | youtube/public/script.js:91-98 | The error box shows the message iff it is non-empty; an empty message hides it |
| YouTubeClient.NotOkShowsMessage | youtube/public/script.js:53-59 | A non-ok response never displays stats; it shows `data.error` when that is a non-empty string, and "Failed to fetch data" when it is falsy; an ok response with a payload is displayed |
| YouTubeClient.FormatNumber | youtube/public/script.js:86-89 | The text is '0' iff the value is falsy |
| InstagramClient.CleanUsername | instagram-stats/client/script.js:14-23 | Definition of the username clean-up; GetStatsUsername is proved to compute it, and EmptyInputNoRequest, FromProfileUrl, MarkerWithoutMatch, OnlyFirstAtRemoved, DoubledAtKeepsOne and PlainInputUnchanged state its properties |
| InstagramClient.GetStatsUsername | instagram-stats/client/script.js:14-23 | The clean-up as written, updating the local username step by step, gives CleanUsername of the input |
| InstagramClient.EmptyInputNoRequest | instagram-stats/client/script.js:14-15 | No request is made iff the trimmed input is empty |
| InstagramClient.FromProfileUrl | instagram-stats/client/script.js:19-23 | When "instagram.com/" is followed by `[a-zA-Z0-9_.]`, the username is the leftmost maximal such run, which is non-empty and has no '@' |
| InstagramClient.MarkerWithoutMatch | instagram-stats/client/script.js:19-23 | When the pattern does not match, the trimmed input is kept, less its first '@' |
| InstagramClient.OnlyFirstAtRemoved | instagram-stats/client/script.js:23 | When the profile-URL pattern does not match and the trimmed input has an '@', the username is the trimmed input less the character at its first '@': the parts before and after are kept in order; it is one character shorter, and exactly one '@' is gone (multiset difference) |
| InstagramClient.DoubledAtKeepsOne | instagram-stats/client/script.js:23 | Input starting "@@" is requested with one '@' left |
| InstagramClient.PlainInputUnchanged | instagram-stats/client/script.js:14-23 | Input without "instagram.com/" and without '@' is requested exactly as trimmed |
| InstagramClient.RequestUrl | instagram-stats/client/script.js:32 | The request starts with the fixed proxy prefix `http://localhost:5001/instagram?username=`, ends with the username, and has nothing else in between |
| InstagramClient.Classify | instagram-stats/client/script.js:31-49 | Definition: what the page shows for the proxy's answer; stated by ClassifyOrder and RawFallbackShown |
| InstagramClient.ClassifyOrder | instagram-stats/client/script.js:35-43 | Stats are rendered iff the answer is ok and has no truthy warning; the raw data and the warning are shown iff it is ok with a truthy warning; a non-ok answer shows `data.message \|\| data.error \|\| 'Failed to fetch stats'` |
| InstagramClient.RawFallbackShown | instagram-stats/client/script.js:37-41 | The proxy's 200 fallback `{warning, raw}` reaches the page as exactly the upstream payload plus the proxy's warning text |
| InstagramClient.FormatNumber | instagram-stats/client/script.js:78-81 | The text is '0' iff the value is falsy |
| IdVerification.ValidateIdDetails | face_verification/id_verification.py:82-103 | Definition of `validate_id_details`, with its empty-text answer; stated by KeywordsSpec and CleanedTextSpec |
| IdVerification.ReSub | face_verification/id_verification.py:97 | Definition: `re.sub(r'\d{8,}', '********', text)` as the engine scans, trying a greedy `\d{8,}` at each position; stated by ReSubIsMaskRuns |
| IdVerification.MaskRuns | face_verification/id_verification.py:97 | Reference definition: each maximal digit run of 8 or more becomes the mask and everything else is copied; stated by LongRunMasked, ShortRunKept, NonDigitKept, MaskRunsAppend, MaskedHasNoLongRun, NoLongRunUnchanged, MaskIdempotent and MaskRunsEmpty |
| IdVerification.FoundKeywords | face_verification/id_verification.py:93-94 | The keywords found are exactly the list entries whose lower-case form occurs in the lower-cased text, in list order, and without duplicates when the list has none |
| IdVerification.KeywordsSpec | face_verification/id_verification.py:86-103 | Empty text is `(False, [], "")`; otherwise found_keywords is exactly the keywords mentioned, in order and each once, and valid_structure holds iff found_keywords is non-empty, iff some keyword is mentioned |
| IdVerification.ReSubIsMaskRuns | face_verification/id_verification.py:97 | The `re.sub` scan equals the reference split into maximal digit runs: runs of 8 or more become the mask, everything else is copied |
| IdVerification.LongRunMasked | face_verification/id_verification.py:97 | A maximal run of 8 or more digits becomes exactly "********", and the text on either side is masked independently |
| IdVerification.ShortRunKept | face_verification/id_verification.py:97 | A maximal run of 1 to 7 digits is kept unchanged |
| IdVerification.NonDigitKept | face_verification/id_verification.py:97 | A character that is not a digit is kept unchanged |
| IdVerification.MaskRunsAppend | face_verification/id_verification.py:97 | Two texts that do not join two digits at the seam are masked independently |
| IdVerification.MaskedHasNoLongRun | face_verification/id_verification.py:97 | The masked text has no run of 8 or more digits |
| IdVerification.NoLongRunMeansNoEightDigits | face_verification/id_verification.py:97 | Having no maximal run of 8 or more digits is the same as containing 8 consecutive digits nowhere |
| IdVerification.NoLongRunUnchanged | face_verification/id_verification.py:97 | Text without such a run is left unchanged |
| IdVerification.MaskIdempotent | face_verification/id_verification.py:97 | Masking a second time changes nothing |
| IdVerification.MaskRunsEmpty | face_verification/id_verification.py:97 | The masked text is empty iff the text is |
| IdVerification.CleanedTextSpec | face_verification/id_verification.py:86-103 | cleaned_text is the masked text: empty iff the text is, and without a run of 8 or more digits |
| IdVerification.Sample | face_verification/id_verification.py:169 | The sample is "" for empty cleaned text, and otherwise the first min(100, length) characters followed by "..." |
| IdVerification.ReportText | face_verification/id_verification.py:167-169 | Definition of the `ocr_text_found`, `ocr_keywords` and `masked_text_sample` fields; stated by ReportTextSpec |
| IdVerification.ReportTextSpec | face_verification/id_verification.py:119-169 | ocr_text_found holds iff the raw text is non-empty; the sample is empty iff the raw text is, and otherwise is a prefix of the masked text, at most 100 characters long, followed by "..." |
| Text.MatchCapture | twitter-stats/server/index.js:41 | Definition: group 1 of `s.match(/prefix(k+)/)`, found by trying start positions left to right and taking the whole run; stated by MatchCaptureIsLeftmost, LeftmostIsMatchCapture and MatchCaptureNone |
| Text.MatchCaptureIsLeftmost | instagram-stats/client/script.js:20 | What the capture function returns is the leftmost `prefix(k+)` capture, and it is non-empty |
| Text.LeftmostIsMatchCapture | twitter-stats/server/index.js:41-50 | The leftmost capture is unique, so it is what the capture function returns |
| Text.MatchCaptureNone | twitter-stats/server/index.js:42-51 | No capture is found iff the pattern matches at no position |
| Text.Trim | youtube/public/script.js:31 | `s.trim()` is a slice of `s` with only JavaScript white space before and after it (Text.StrippedAt); the slice is empty or starts and ends with a non-white-space character; it is empty iff `s` is all white space |
| Text.RemoveFirst | instagram-stats/client/script.js:23 | `replace('@', '')` leaves the text unchanged without an '@'; with one it removes exactly the character at the first '@' position: what comes before and after it is kept, in order |

## Left out

- Express, cors, dotenv, axios and `fetch` themselves, `app.listen`, logging, and the YouTube server's `startServer` (port retry, browser launch, SIGINT). These are I/O and process control. Upstream outcomes and environment variables are inputs.
- Parse failures of `response.json()`: the body is given already parsed.
- Express query parsing: array-valued and object-valued query parameters are not modelled, only a string or nothing.
- `JSON.stringify` of bodies: a reply body is a `Json` tree, and the serializer dropping `undefined` fields is not modelled.
- JavaScript prototype properties: `Js.Get` sees only own fields, and `length` only on arrays and strings.
- All DOM updates: element toggling, `displayData`, `renderStats`, `showRawData` and the file-protocol warning. The model records what the page shows, not how.
- YouTubeClient.FormatNumber: only the falsy branch is stated; `parseInt(num).toLocaleString()` is locale-library behaviour.
- InstagramClient.FormatNumber: only the falsy branch is stated; `Intl.NumberFormat` compact notation is locale-library behaviour.
- Floating-point and non-integer numbers, and NaN: JSON numbers are integers.
- YouTubeClient.ExtractVideoId, InstagramClient.CleanUsername, Text.Trim: a Dafny `char` is a whole code point, while JavaScript strings count UTF-16 code units, so the 11-character check and all positions agree with the source only for text inside the Basic Multilingual Plane.
- InstagramServer.ReplyToUpstream: the missing reply when the `catch` block throws on a nullish `error.response.data` is what Express 4 does with a rejected async handler. Express 5 would answer 500 instead, and Node 15 or later running Express 4 ends the process on the unhandled rejection; neither is modelled.
- Python's Unicode-aware `str.lower()` and Unicode `\d`: characters are treated as ASCII for both. `String.prototype.trim` uses JavaScript's full white-space set.
- `extract_text`, `detect_face`, `_load_image`, the DeepFace call, and the float similarity mapping in `verify_user`. These are OCR, image and foreign-library code, or floating point. Only the text fields of the result are modelled, with the OCR output as input.
- The context files (the Twitter and influencer dashboards, the ML servers, campaign_model, face_verification/verification.py and app.py) are not part of this model.
