/**
 * heygen_client.py: the request headers, the video-generation payload, the reading of
 * `video_id` and `status` out of the replies, and the `wait_for_video` polling loop.
 *
 * The module-level `HEYGEN_API_KEY` is a parameter. The HTTP library is an oracle from the
 * request made to the response received; the clock is the elapsed time read after each poll.
 * An exception is an `Err` whose text starts with its Python class name.
 */
module HeyGen {
  import opened Wrappers
  import opened PyText
  import opened Json
  import opened Lines

  const ApiBase := "https://api.heygen.com"

  const GenerateUrl := ApiBase + "/v2/video/generate"

  const StatusUrl := ApiBase + "/v1/video_status.get"

  const MissingKey := "HeyGenError: HEYGEN_API_KEY is not set in heygen_client.HEYGEN_API_KEY"

  /** HTTP headers, in the order the dict literal lists them. */
  type Headers = seq<(string, string)>

  /** The value of header `name`, if it is set. */
  function Header(headers: Headers, name: string): (r: Option<string>)
    ensures r.Some? <==> exists i :: 0 <= i < |headers| && headers[i].0 == name
  {
    if headers == [] then None
    else if headers[0].0 == name then Some(headers[0].1)
    else Header(headers[1..], name)
  }

  /** `_get_headers()`: an unset or empty key raises. */
  function GetHeaders(key: Option<string>): (r: Result<Headers>)
    ensures r.Ok? <==> key.Some? && key.value != ""
    ensures r.Err? ==> r.error == MissingKey
  {
    if key.None? || key.value == "" then Err(MissingKey)
    else Ok([("x-api-key", key.value), ("accept", "application/json"), ("Content-Type", "application/json")])
  }

  /** A set key gives exactly three headers: the key under `x-api-key`, and JSON accepted and sent. */
  lemma HeadersRule(key: Option<string>)
    requires key.Some? && key.value != ""
    ensures var headers := GetHeaders(key).value;
      |headers| == 3
      && Header(headers, "x-api-key") == Some(key.value)
      && Header(headers, "accept") == Some("application/json")
      && Header(headers, "Content-Type") == Some("application/json")
  {
    var headers := GetHeaders(key).value;
    assert headers[1..] == [("accept", "application/json"), ("Content-Type", "application/json")];
    assert headers[1..][1..] == [("Content-Type", "application/json")];
    assert Header(headers[1..][1..], "Content-Type") == Some("application/json");
  }

  /** What is handed to `requests`: the verb, the URL, the headers, the query parameters and the JSON body. */
  datatype Request = Request(verb: string, url: string, headers: Headers, params: seq<(string, string)>, body: Option<Json>)

  /** What `requests` hands back: `resp.ok`, `resp.status_code`, `resp.text`, and `resp.json()` or the error it raises. */
  datatype Response = Response(ok: bool, statusCode: nat, text: string, json: Result<Json>)

  type Http = Request -> Response

  /** The message of the `HeyGenError` for a response that is not ok. */
  function Failed(action: string, resp: Response): string
  {
    "HeyGenError: " + action + " failed: " + NatDecimal(resp.statusCode) + " " + resp.text
  }

  /** The message names the exception, the action, the status code and the response text, in that order. */
  lemma FailedText(action: string, resp: Response)
    ensures var prefix := "HeyGenError: " + action + " failed: ";
      StartsWith(Failed(action, resp), prefix)
      && Failed(action, resp)[|prefix|..] == NatDecimal(resp.statusCode) + " " + resp.text
  {
    var prefix := "HeyGenError: " + action + " failed: ";
    var rest := NatDecimal(resp.statusCode) + " " + resp.text;
    assert Failed(action, resp) == prefix + rest;
    StartsWithConcat(prefix, rest);
  }

  /** The JSON body of an ok response, or the error for one that is not ok. */
  function Reply(action: string, resp: Response): (r: Result<Json>)
    ensures !resp.ok ==> r == Err(Failed(action, resp))
    ensures resp.ok ==> r == resp.json
  {
    if !resp.ok then Err(Failed(action, resp)) else resp.json
  }

  // ---------------------------------------------------------------------
  // create_avatar_video
  // ---------------------------------------------------------------------

  /** The body of the generation request: one avatar scene with its voice, background, dimension and flags. */
  function Payload(scriptText: string, avatarId: string, voiceId: string,
                   nameonly test: bool := false, nameonly width: int := 1280, nameonly height: int := 720,
                   nameonly backgroundColor: string := "#FFFFFF"): Json
  {
    Obj([
      ("video_inputs", Arr([Obj([
        ("character", Obj([("type", Str("avatar")), ("avatar_id", Str(avatarId)), ("avatar_style", Str("normal"))])),
        ("voice", Obj([("type", Str("text")), ("input_text", Str(scriptText)), ("voice_id", Str(voiceId))])),
        ("background", Obj([("type", Str("color")), ("value", Str(backgroundColor))]))])])),
      ("dimension", Obj([("width", Int(width)), ("height", Int(height))])),
      ("aspect_ratio", Str("16:9")),
      ("test", Bool(test))])
  }

  /**
   * The payload has one scene, which carries the script, the avatar, the voice and the
   * background colour; the dimension is the width and height; the aspect ratio is 16:9 and
   * the test flag is passed through.
   */
  lemma PayloadShape(scriptText: string, avatarId: string, voiceId: string, test: bool, width: int, height: int, backgroundColor: string)
    ensures var p := Payload(scriptText, avatarId, voiceId, test := test, width := width, height := height,
                             backgroundColor := backgroundColor);
      p.Obj?
      && Lookup(p.members, "video_inputs").Some? && Lookup(p.members, "video_inputs").value.Arr?
      && |Lookup(p.members, "video_inputs").value.items| == 1
      && Lookup(p.members, "dimension") == Some(Obj([("width", Int(width)), ("height", Int(height))]))
      && Lookup(p.members, "aspect_ratio") == Some(Str("16:9"))
      && Lookup(p.members, "test") == Some(Bool(test))
    ensures var scene := Payload(scriptText, avatarId, voiceId, test := test, width := width, height := height,
                                 backgroundColor := backgroundColor).members[0].1.items[0];
      scene.Obj?
      && Lookup(scene.members, "character") == Some(Obj([("type", Str("avatar")), ("avatar_id", Str(avatarId)), ("avatar_style", Str("normal"))]))
      && Lookup(scene.members, "voice") == Some(Obj([("type", Str("text")), ("input_text", Str(scriptText)), ("voice_id", Str(voiceId))]))
      && Lookup(scene.members, "background") == Some(Obj([("type", Str("color")), ("value", Str(backgroundColor))]))
  {
    var p := Payload(scriptText, avatarId, voiceId, test := test, width := width, height := height,
                     backgroundColor := backgroundColor);
    LookupAt(p.members, 0, "video_inputs");
    LookupAt(p.members, 1, "dimension");
    LookupAt(p.members, 2, "aspect_ratio");
    LookupAt(p.members, 3, "test");
    var scene := p.members[0].1.items[0];
    LookupAt(scene.members, 0, "character");
    LookupAt(scene.members, 1, "voice");
    LookupAt(scene.members, 2, "background");
  }

  /** Without keyword arguments the video is 1280 by 720 on white, and not a test. */
  lemma PayloadDefaults(scriptText: string, avatarId: string, voiceId: string)
    ensures var p := Payload(scriptText, avatarId, voiceId);
      Lookup(p.members, "dimension") == Some(Obj([("width", Int(1280)), ("height", Int(720))]))
      && Lookup(p.members, "test") == Some(Bool(false))
      && Lookup(p.members[0].1.items[0].members, "background") == Some(Obj([("type", Str("color")), ("value", Str("#FFFFFF"))]))
  {
    PayloadShape(scriptText, avatarId, voiceId, false, 1280, 720, "#FFFFFF");
  }

  /** `data.get("data", {}).get(key) or data.get(key)` */
  function NestedOrTop(data: Json, key: string): (r: Result<Json>)
    ensures r.Ok? ==> data.Obj?
  {
    match Get(data, "data", Obj([]))
    case Err(e) => Err(e)
    case Ok(inner) =>
      match Get(inner, key)
      case Err(e) => Err(e)
      case Ok(first) => if Truthy(first) then Ok(first) else Get(data, key)
  }

  /**
   * The value under `data` wins when it is truthy; otherwise the top-level value is taken,
   * `None` when absent. A reply that is not a dict, or whose `data` is present but not a dict,
   * raises `AttributeError`.
   */
  lemma NestedOrTopRule(data: Json, key: string)
    ensures !data.Obj? ==> NestedOrTop(data, key).Err?
    ensures data.Obj? ==>
      match Lookup(data.members, "data")
      case Some(inner) =>
        if !inner.Obj? then NestedOrTop(data, key).Err?
        else if Lookup(inner.members, key).Some? && Truthy(Lookup(inner.members, key).value)
        then NestedOrTop(data, key) == Ok(Lookup(inner.members, key).value)
        else NestedOrTop(data, key) == Ok(if Lookup(data.members, key).Some? then Lookup(data.members, key).value else Null)
      case None => NestedOrTop(data, key) == Ok(if Lookup(data.members, key).Some? then Lookup(data.members, key).value else Null)
  {
  }

  /** The id of the video a generation reply announces, or the error raised for it. */
  function VideoId(data: Json): (r: Result<Json>)
    ensures r.Ok? ==> Truthy(r.value)
  {
    match NestedOrTop(data, "video_id")
    case Err(e) => Err(e)
    case Ok(id) => if Truthy(id) then Ok(id) else Err("HeyGenError: video_id not found in response: " + Repr(data))
  }

  /** An id is returned exactly when one of the two places holds a truthy value; `data.video_id` is preferred. */
  lemma VideoIdRule(data: Json)
    requires NestedOrTop(data, "video_id").Ok?
    ensures VideoId(data).Ok? <==> Truthy(NestedOrTop(data, "video_id").value)
    ensures VideoId(data).Ok? ==> VideoId(data) == NestedOrTop(data, "video_id")
    ensures VideoId(data).Err? ==> VideoId(data).error == "HeyGenError: video_id not found in response: " + Repr(data)
  {
  }

  /** A reply holding `video_id` only under `data` and one holding it only at the top both yield it. */
  lemma VideoIdPlaces(v: string)
    requires v != ""
    ensures VideoId(Obj([("data", Obj([("video_id", Str(v))]))])) == Ok(Str(v))
    ensures VideoId(Obj([("video_id", Str(v))])) == Ok(Str(v))
  {
    assert Lookup([("video_id", Str(v))], "data") == None;
  }

    /** What `create_avatar_video` makes of the response to its request. */
  function Created(resp: Response): (r: Result<Json>)
    ensures r.Ok? ==> Truthy(r.value)
  {
    match Reply("Create avatar video", resp)
    case Err(e) => Err(e)
    case Ok(data) => VideoId(data)
  }

  /** A response that is not ok raises with its status code; an ok one yields the id read from its body. */
  lemma CreatedRule(resp: Response)
    ensures !resp.ok ==> Created(resp) == Err(Failed("Create avatar video", resp))
    ensures resp.ok && resp.json.Ok? ==> Created(resp) == VideoId(resp.json.value)
    ensures resp.ok && resp.json.Err? ==> Created(resp) == Err(resp.json.error)
  {
  }

  /** `create_avatar_video(...)`: the payload is posted with the headers, then the reply is read. */
  function CreateAvatarVideo(key: Option<string>, http: Http, scriptText: string, avatarId: string, voiceId: string,
                             nameonly test: bool := false, nameonly width: int := 1280, nameonly height: int := 720,
                             nameonly backgroundColor: string := "#FFFFFF"): (r: Result<Json>)
    ensures (key.None? || key.value == "") ==> r == Err(MissingKey)
    ensures key.Some? && key.value != "" ==>
      r == Created(http(Request("POST", GenerateUrl, GetHeaders(key).value, [],
                                Some(Payload(scriptText, avatarId, voiceId, test := test, width := width,
                                             height := height, backgroundColor := backgroundColor)))))
    ensures r.Ok? ==> Truthy(r.value)
  {
    var payload := Payload(scriptText, avatarId, voiceId, test := test, width := width, height := height,
                           backgroundColor := backgroundColor);
    match GetHeaders(key)
    case Err(e) => Err(e)
    case Ok(headers) => Created(http(Request("POST", GenerateUrl, headers, [], Some(payload))))
  }

  // ---------------------------------------------------------------------
  // get_video_status and wait_for_video
  // ---------------------------------------------------------------------

  /** `get_video_status(video_id)` */
  function GetVideoStatus(key: Option<string>, http: Http, videoId: string): (r: Result<Json>)
    ensures (key.None? || key.value == "") ==> r == Err(MissingKey)
    ensures key.Some? && key.value != "" ==> r == Reply("Get video status", http(StatusRequest(key.value, videoId)))
  {
    match GetHeaders(key)
    case Err(e) => Err(e)
    case Ok(headers) => Reply("Get video status", http(Request("GET", StatusUrl, headers, [("video_id", videoId)], None)))
  }

  /** The status request for a set key: a GET of the status URL with the headers and `video_id` as its one parameter. */
  function StatusRequest(key: string, videoId: string): Request
    requires key != ""
  {
    Request("GET", StatusUrl, GetHeaders(Some(key)).value, [("video_id", videoId)], None)
  }

  /**
   * With a key set, the status call sends one GET carrying the three headers and the id;
   * a response that is not ok raises with its status code, and an ok one yields its JSON body.
   */
  lemma GetVideoStatusRule(key: string, http: Http, videoId: string)
    requires key != ""
    ensures var req := StatusRequest(key, videoId);
      req.verb == "GET" && req.url == StatusUrl && req.params == [("video_id", videoId)] && req.body.None?
      && |req.headers| == 3 && req.headers == GetHeaders(Some(key)).value
    ensures var resp := http(StatusRequest(key, videoId));
      (!resp.ok ==> GetVideoStatus(Some(key), http, videoId) == Err(Failed("Get video status", resp)))
      && (resp.ok ==> GetVideoStatus(Some(key), http, videoId) == resp.json)
  {
    HeadersRule(Some(key));
  }

  /** `status in {"completed", "failed"}`; a list or a dict is unhashable and raises. */
  function IsTerminal(status: Json): (r: Result<bool>)
    ensures r.Ok? <==> !status.Arr? && !status.Obj?
    ensures r == Ok(true) <==> status == Str("completed") || status == Str("failed")
  {
    match status
    case Arr(_) => Err("TypeError: unhashable type: 'list'")
    case Obj(_) => Err("TypeError: unhashable type: 'dict'")
    case Str(s) => Ok(s == "completed" || s == "failed")
    case _ => Ok(false)
  }

  /** One status request: the response the service gave it, and `time.time() - start` read just after. */
  datatype Poll = Poll(response: Response, elapsed: real)

  /** How the loop ended: with the final status reply, with an exception, or still polling when the polls run out. */
  datatype Wait = Finished(statusData: Json) | Raised(error: string) | StillPolling

  /** The exception once the deadline has passed on a status that is not final. */
  function TimedOut(videoId: string, statusData: Json): string
  {
    "HeyGenError: Timeout waiting for video " + videoId + "; last status: " + Repr(statusData)
  }

  /** One pass of the loop body on poll `p`: `None` when the loop goes on to the next poll. */
  function PollStep(key: Option<string>, videoId: string, p: Poll, timeoutSeconds: int): Option<Wait>
  {
    match GetVideoStatus(key, _ => p.response, videoId)
    case Err(e) => Some(Raised(e))
    case Ok(statusData) =>
      match NestedOrTop(statusData, "status")
      case Err(e) => Some(Raised(e))
      case Ok(status) =>
        match IsTerminal(status)
        case Err(e) => Some(Raised(e))
        case Ok(terminal) =>
          if terminal then Some(Finished(statusData))
          else if p.elapsed > timeoutSeconds as real then Some(Raised(TimedOut(videoId, statusData)))
          else None
  }

  /** A `while True` loop over the polls from `i` on: the first pass that ends it, and how many polls it used. */
  function Polling(polls: seq<Poll>, i: nat, step: Poll -> Option<Wait>): (Wait, nat)
    requires i <= |polls|
    decreases |polls| - i
  {
    if i == |polls| then (StillPolling, i)
    else
      match step(polls[i])
      case Some(w) => (w, i + 1)
      case None => Polling(polls, i + 1, step)
  }

  /**
   * The loop ends on the first poll whose pass ends it, having gone on past every earlier
   * one; or it uses every poll and is still polling.
   */
  lemma {:induction false} PollingEnds(polls: seq<Poll>, i: nat, step: Poll -> Option<Wait>)
    requires i <= |polls|
    ensures var (w, n) := Polling(polls, i, step);
      i <= n <= |polls|
      && (forall j :: i <= j < n - 1 ==> step(polls[j]).None?)
      && ((w == StillPolling && n == |polls| && (n == i || step(polls[n - 1]).None?))
          || (i < n && step(polls[n - 1]) == Some(w)))
    decreases |polls| - i
  {
    if i < |polls| && step(polls[i]).None? {
      PollingEnds(polls, i + 1, step);
    }
  }

  /** While every pass goes on, the loop uses every poll. */
  lemma {:induction false} PollingExhausts(polls: seq<Poll>, i: nat, step: Poll -> Option<Wait>)
    requires i <= |polls| && forall j :: i <= j < |polls| ==> step(polls[j]).None?
    ensures Polling(polls, i, step) == (StillPolling, |polls|)
    decreases |polls| - i
  {
    if i < |polls| {
      PollingExhausts(polls, i + 1, step);
    }
  }

  /** The loop from poll `i` on: how it ends and how many status requests it made in all. */
  function Waiting(key: Option<string>, videoId: string, polls: seq<Poll>, timeoutSeconds: int, i: nat): (Wait, nat)
    requires i <= |polls|
  {
    if key.None? || key.value == "" then (Raised(MissingKey), i)
    else Polling(polls, i, p => PollStep(key, videoId, p, timeoutSeconds))
  }

  /**
   * `wait_for_video(video_id, poll_interval=..., timeout_seconds=...)` over the polls the
   * service answers, in order.
   */
  method WaitForVideo(key: Option<string>, videoId: string, polls: seq<Poll>, nameonly timeoutSeconds: int := 600)
    returns (outcome: Wait, requests: nat)
    ensures (outcome, requests) == Waiting(key, videoId, polls, timeoutSeconds, 0)
  {
    var i := 0;
    while true
      invariant i <= |polls|
      invariant Waiting(key, videoId, polls, timeoutSeconds, i) == Waiting(key, videoId, polls, timeoutSeconds, 0)
      decreases |polls| - i
    {
      var headers := GetHeaders(key);
      if headers.Err? {
        return Raised(headers.error), i;
      }
      if i == |polls| {
        return StillPolling, i;
      }
      var p := polls[i];
      var statusData := GetVideoStatus(key, _ => p.response, videoId);
      if statusData.Err? {
        return Raised(statusData.error), i + 1;
      }
      var status := NestedOrTop(statusData.value, "status");
      if status.Err? {
        return Raised(status.error), i + 1;
      }
      var terminal := IsTerminal(status.value);
      if terminal.Err? {
        return Raised(terminal.error), i + 1;
      }
      if terminal.value {
        return Finished(statusData.value), i + 1;
      }
      if p.elapsed > timeoutSeconds as real {
        return Raised(TimedOut(videoId, statusData.value)), i + 1;
      }
      i := i + 1;
    }
  }

  /** The status reply of poll `p`, when the request succeeded and its status can be read. */
  predicate Readable(key: Option<string>, videoId: string, p: Poll)
  {
    GetVideoStatus(key, _ => p.response, videoId).Ok?
    && NestedOrTop(GetVideoStatus(key, _ => p.response, videoId).value, "status").Ok?
    && IsTerminal(NestedOrTop(GetVideoStatus(key, _ => p.response, videoId).value, "status").value).Ok?
  }

  /** Poll `p` has a final status. */
  predicate Final(key: Option<string>, videoId: string, p: Poll)
  {
    Readable(key, videoId, p)
    && IsTerminal(NestedOrTop(GetVideoStatus(key, _ => p.response, videoId).value, "status").value) == Ok(true)
  }

  /** Poll `p` lets the loop go on: its status is readable and not final, and the deadline has not passed. */
  predicate Continues(key: Option<string>, videoId: string, p: Poll, timeoutSeconds: int)
  {
    Readable(key, videoId, p) && !Final(key, videoId, p) && p.elapsed <= timeoutSeconds as real
  }

  /** The loop goes on exactly on the polls `Continues` describes. */
  lemma StepContinues(key: Option<string>, videoId: string, p: Poll, timeoutSeconds: int)
    requires key.Some? && key.value != ""
    ensures PollStep(key, videoId, p, timeoutSeconds).None? <==> Continues(key, videoId, p, timeoutSeconds)
    ensures Final(key, videoId, p) ==>
      PollStep(key, videoId, p, timeoutSeconds) == Some(Finished(GetVideoStatus(key, _ => p.response, videoId).value))
    ensures Readable(key, videoId, p) && !Final(key, videoId, p) && p.elapsed > timeoutSeconds as real ==>
      PollStep(key, videoId, p, timeoutSeconds) == Some(Raised(TimedOut(videoId, GetVideoStatus(key, _ => p.response, videoId).value)))
  {
  }

  /**
   * A final status is returned even after the deadline: the status is looked at before the
   * clock. A status that is not final at exactly the deadline lets the loop poll again.
   */
  lemma FinalBeforeDeadline(key: Option<string>, videoId: string, polls: seq<Poll>, timeoutSeconds: int)
    requires key.Some? && key.value != "" && polls != []
    ensures Final(key, videoId, polls[0]) ==>
      Waiting(key, videoId, polls, timeoutSeconds, 0) == (Finished(GetVideoStatus(key, _ => polls[0].response, videoId).value), 1)
    ensures Readable(key, videoId, polls[0]) && !Final(key, videoId, polls[0]) && polls[0].elapsed == timeoutSeconds as real ==>
      Waiting(key, videoId, polls, timeoutSeconds, 0) == Waiting(key, videoId, polls, timeoutSeconds, 1)
  {
    StepContinues(key, videoId, polls[0], timeoutSeconds);
  }

  /** Without a key the loop raises before any request is made. */
  lemma WaitWithoutKey(videoId: string, polls: seq<Poll>, timeoutSeconds: int)
    ensures Waiting(None, videoId, polls, timeoutSeconds, 0) == (Raised(MissingKey), 0)
    ensures Waiting(Some(""), videoId, polls, timeoutSeconds, 0) == (Raised(MissingKey), 0)
  {
  }

  /**
   * When the loop returns a reply, it is that of the first poll with a final status, every
   * earlier poll let the loop go on, and exactly that many requests were made: at least one.
   */
  lemma FinishedAtFirstFinal(key: Option<string>, videoId: string, polls: seq<Poll>, timeoutSeconds: int)
    requires key.Some? && key.value != ""
    ensures var (w, n) := Waiting(key, videoId, polls, timeoutSeconds, 0);
      w.Finished? ==>
        0 < n <= |polls| && Final(key, videoId, polls[n - 1])
        && w.statusData == GetVideoStatus(key, _ => polls[n - 1].response, videoId).value
        && forall j :: 0 <= j < n - 1 ==> Continues(key, videoId, polls[j], timeoutSeconds)
  {
    var step := p => PollStep(key, videoId, p, timeoutSeconds);
    PollingEnds(polls, 0, step);
    var (w, n) := Polling(polls, 0, step);
    forall j | 0 <= j < n
      ensures step(polls[j]).None? <==> Continues(key, videoId, polls[j], timeoutSeconds)
    {
      StepContinues(key, videoId, polls[j], timeoutSeconds);
    }
    if w.Finished? {
      StepFinished(key, videoId, polls[n - 1], timeoutSeconds);
    }
  }

  /** A pass that returns a reply had a final status, and the reply is that poll's. */
  lemma StepFinished(key: Option<string>, videoId: string, p: Poll, timeoutSeconds: int)
    requires key.Some? && key.value != ""
    requires PollStep(key, videoId, p, timeoutSeconds).Some? && PollStep(key, videoId, p, timeoutSeconds).value.Finished?
    ensures Final(key, videoId, p)
    ensures PollStep(key, videoId, p, timeoutSeconds).value.statusData == GetVideoStatus(key, _ => p.response, videoId).value
  {
  }

  /** A pass that raises on a readable status raises the timeout: the status was not final and the deadline had passed. */
  lemma StepTimedOut(key: Option<string>, videoId: string, p: Poll, timeoutSeconds: int)
    requires key.Some? && key.value != "" && Readable(key, videoId, p)
    requires PollStep(key, videoId, p, timeoutSeconds).Some? && PollStep(key, videoId, p, timeoutSeconds).value.Raised?
    ensures !Final(key, videoId, p) && p.elapsed > timeoutSeconds as real
    ensures PollStep(key, videoId, p, timeoutSeconds).value.error == TimedOut(videoId, GetVideoStatus(key, _ => p.response, videoId).value)
  {
  }

  /**
   * The timeout error is raised only on a poll past the deadline whose status is not final,
   * after polls that all let the loop go on.
   */
  lemma TimeoutOnlyPastDeadline(key: Option<string>, videoId: string, polls: seq<Poll>, timeoutSeconds: int)
    requires key.Some? && key.value != ""
    ensures var (w, n) := Waiting(key, videoId, polls, timeoutSeconds, 0);
      (w.Raised? && 0 < n <= |polls| && Readable(key, videoId, polls[n - 1])) ==>
        !Final(key, videoId, polls[n - 1]) && polls[n - 1].elapsed > timeoutSeconds as real
        && w.error == TimedOut(videoId, GetVideoStatus(key, _ => polls[n - 1].response, videoId).value)
        && forall j :: 0 <= j < n - 1 ==> Continues(key, videoId, polls[j], timeoutSeconds)
  {
    var step := p => PollStep(key, videoId, p, timeoutSeconds);
    PollingEnds(polls, 0, step);
    var (w, n) := Polling(polls, 0, step);
    forall j | 0 <= j < n
      ensures step(polls[j]).None? <==> Continues(key, videoId, polls[j], timeoutSeconds)
    {
      StepContinues(key, videoId, polls[j], timeoutSeconds);
    }
    if w.Raised? && 0 < n <= |polls| && Readable(key, videoId, polls[n - 1]) {
      StepTimedOut(key, videoId, polls[n - 1], timeoutSeconds);
    }
  }

  /** While every poll lets it go on, the loop uses them all and is still polling at the end. */
  lemma PollsUntilExhausted(key: Option<string>, videoId: string, polls: seq<Poll>, timeoutSeconds: int)
    requires key.Some? && key.value != ""
    requires forall j :: 0 <= j < |polls| ==> Continues(key, videoId, polls[j], timeoutSeconds)
    ensures Waiting(key, videoId, polls, timeoutSeconds, 0) == (StillPolling, |polls|)
  {
    var step := p => PollStep(key, videoId, p, timeoutSeconds);
    forall j | 0 <= j < |polls|
      ensures step(polls[j]).None?
    {
      StepContinues(key, videoId, polls[j], timeoutSeconds);
    }
    PollingExhausts(polls, 0, step);
  }
}
