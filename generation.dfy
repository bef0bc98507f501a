/** One press of "Generate Video": the request the page builds, and the
    single message or video the page shows for whatever the backend call
    produced. */
module Generation {
  import opened PyText
  import opened Json

  /** The three values of the "Select Content Source" box, in its order;
      index 0, "both", is preselected. */
  datatype SourceType = Both | News | Reddit

  const SourceOptions: seq<SourceType> := [Both, News, Reddit]
  const DefaultSourceIndex: nat := 0

  /** The string sent as `source_type`. */
  function WireName(mode: SourceType): string
  {
    match mode
    case Both => "both"
    case News => "news"
    case Reddit => "reddit"
  }

  /** The selection box offers every source type once, preselects "both",
      and the wire name determines the source type. */
  lemma SourceOptionsComplete(a: SourceType, b: SourceType)
    ensures a in SourceOptions && SourceOptions[DefaultSourceIndex] == Both
    ensures WireName(a) == WireName(b) ==> a == b
  {
  }

  const VideoPath: string := "/generate-news-video"
  const TimeoutSeconds: nat := 300

  /** The POST the page sends: path, JSON body fields and timeout. The
      backend's base address is configuration and not part of it. */
  datatype Request = Request(path: string, topics: seq<string>, sourceType: string, timeoutSeconds: nat)

  function BuildRequest(topics: seq<string>, mode: SourceType): Request
  {
    Request(VideoPath, topics, WireName(mode), TimeoutSeconds)
  }

  /** The Python exception classes the page's handlers tell apart: the
      `except requests.exceptions.ConnectionError` branch, the `except
      ValueError` in the API error handler, the `AttributeError` of calling
      `.get` on a non-dict, and every other exception. */
  datatype ExcKind = ConnectionError | ValueError | AttributeError | OtherError
  datatype Exc = Exc(kind: ExcKind, text: string)

  /** A Python computation either returns a value or raises. */
  datatype Result<+T> = Ok(value: T) | Raise(exc: Exc)

  /** The response body as `response.json()` sees it: decodable JSON, or
      text on which the decoder raises a ValueError with the given reason. */
  datatype Body = Decoded(value: Json) | Undecodable(reason: string)

  /** What `requests.post` produced: a response (status code, body,
      `response.text`), or an exception it raised (a connect timeout is a
      ConnectionError; a read timeout is another exception). */
  datatype Reply = Responded(status: nat, body: Body, text: string) | Failed(fault: Exc)

  /** What the page shows for one attempt: the video it plays, or one
      error message. */
  datatype Outcome = Success(videoUrl: Json) | Error(message: string)

  /** The signs that open three of the messages: a cross mark, an electric
      plug and a warning sign (with its emoji presentation selector). */
  const CrossMark: char := '\U{274C}'
  const Plug: char := '\U{1F50C}'
  const WarningSign: char := '\U{26A0}'

  const NoVideoUrlMessage: string := [CrossMark] + " No video URL returned by the server."
  const UnreachableMessage: string := [Plug] + " Connection Error: Backend server is unreachable."
  const UnexpectedErrorPrefix: string := [WarningSign, '\U{FE0F}'] + " Unexpected Error: "
  const UnexpectedResponsePrefix: string := "Unexpected API Response: "
  const UnknownError: string := "Unknown error"

  function ApiErrorMessage(status: nat, detail: Json): string
  {
    "API Error (" + Decimal(status) + "): " + PyStr(detail)
  }

  /** `response.json()`. */
  function ResponseJson(body: Body): Result<Json>
  {
    match body
    case Decoded(v) => Ok(v)
    case Undecodable(reason) => Raise(Exc(ValueError, reason))
  }

  /** The text of the AttributeError raised by calling `.get` on a value
      that is not a dict. */
  function NoGetMessage(data: Json): string
  {
    "'" + TypeName(data) + "' object has no attribute 'get'"
  }

  /** `data.get(key, default)` on what `response.json()` returned: only a
      dict has a `get` method. */
  function PyGet(data: Json, key: string, default: Json): Result<Json>
  {
    if data.JObject? then Ok(GetOr(data.fields, key, default))
    else Raise(Exc(AttributeError, NoGetMessage(data)))
  }

  /** The status-200 branch: read `video_url` and show the video when it is
      truthy, the "no video URL" error otherwise. */
  function OnOk(body: Body): Result<Outcome>
  {
    match ResponseJson(body)
    case Raise(e) => Raise(e)
    case Ok(data) =>
      match PyGet(data, "video_url", JNull)
      case Raise(e) => Raise(e)
      case Ok(url) => if Truthy(url) then Ok(Success(url)) else Ok(Error(NoVideoUrlMessage))
  }

  /** `handle_api_error`: report the `detail` field with the status code; a
      ValueError while doing so reports the raw body instead; any other
      exception escapes to the caller. */
  function HandleApiError(status: nat, body: Body, text: string): Result<Outcome>
  {
    var reported :=
      match ResponseJson(body)
      case Raise(e) => Raise(e)
      case Ok(data) =>
        match PyGet(data, "detail", JString(UnknownError))
        case Raise(e) => Raise(e)
        case Ok(detail) => Ok(Error(ApiErrorMessage(status, detail)));
    if reported.Raise? && reported.exc.kind == ValueError
    then Ok(Error(UnexpectedResponsePrefix + text))
    else reported
  }

  /** The whole `try` block of the Generate button with its two handlers. */
  function Attempt(reply: Reply): Outcome
  {
    var handled :=
      match reply
      case Failed(e) => Raise(e)
      case Responded(status, body, text) =>
        if status == 200 then OnOk(body) else HandleApiError(status, body, text);
    match handled
    case Ok(o) => o
    case Raise(e) =>
      if e.kind == ConnectionError then Error(UnreachableMessage)
      else Error(UnexpectedErrorPrefix + e.text)
  }

  /** The six ways an attempt can end, as a reference classification stated
      directly on the reply rather than through the handlers. */
  datatype Route = Delivered | NoVideoUrl | Rejected | Unreadable | Unreachable | Unexpected

  function RouteOf(reply: Reply): Route
  {
    match reply
    case Failed(e) => if e.kind == ConnectionError then Unreachable else Unexpected
    case Responded(status, Undecodable(_), _) => if status == 200 then Unexpected else Unreadable
    case Responded(status, Decoded(v), _) =>
      if !v.JObject? then Unexpected
      else if status != 200 then Rejected
      else if Truthy(GetOr(v.fields, "video_url", JNull)) then Delivered
      else NoVideoUrl
  }

  /** Which route a displayed outcome belongs to, told from the outcome
      alone: the video, or the first character of the error message. */
  function DisplayedRoute(o: Outcome): Route
  {
    match o
    case Success(_) => Delivered
    case Error(m) =>
      if m == [] then Unexpected
      else if m[0] == CrossMark then NoVideoUrl
      else if m[0] == 'A' then Rejected
      else if m[0] == 'U' then Unreadable
      else if m[0] == Plug then Unreachable
      else Unexpected
  }

  /** Every attempt ends in exactly one outcome, and that outcome tells the
      user which of the six routes the reply took. */
  lemma OutcomeShowsRoute(reply: Reply)
    ensures DisplayedRoute(Attempt(reply)) == RouteOf(reply)
  {
    match reply
    case Failed(e) =>
      if e.kind != ConnectionError {
        assert Attempt(reply) == Error(UnexpectedErrorPrefix + e.text);
        assert (UnexpectedErrorPrefix + e.text)[0] == WarningSign;
      }
    case Responded(status, body, text) =>
      match body
      case Undecodable(reason) =>
        if status == 200 {
          assert (UnexpectedErrorPrefix + reason)[0] == WarningSign;
        } else {
          assert (UnexpectedResponsePrefix + text)[0] == 'U';
        }
      case Decoded(v) =>
        if !v.JObject? {
          assert (UnexpectedErrorPrefix + NoGetMessage(v))[0] == WarningSign;
        } else if status != 200 {
          var detail := GetOr(v.fields, "detail", JString(UnknownError));
          assert ApiErrorMessage(status, detail)[0] == 'A';
        }
  }

  /** Status 200 with a truthy `video_url` shows exactly that video; a
      success is shown for nothing else. */
  lemma SuccessExactly(reply: Reply, url: Json)
    ensures Attempt(reply) == Success(url) <==>
      reply.Responded? && reply.status == 200 && reply.body.Decoded? &&
      reply.body.value.JObject? && Get(reply.body.value.fields, "video_url") == Some(url) && Truthy(url)
  {
  }

  /** Status 200 with `video_url` missing or falsy shows the fixed "no video
      URL" error. */
  lemma MissingVideoUrl(fields: seq<(string, Json)>, text: string)
    requires Get(fields, "video_url").None? || !Truthy(Get(fields, "video_url").value)
    ensures Attempt(Responded(200, Decoded(JObject(fields)), text)) == Error(NoVideoUrlMessage)
  {
  }

  /** Any other status with a JSON object body shows the status code and the
      `detail` field, or "Unknown error" when there is none. */
  lemma RejectedReportsDetail(status: nat, fields: seq<(string, Json)>, text: string)
    requires status != 200
    ensures Attempt(Responded(status, Decoded(JObject(fields)), text)) ==
      Error("API Error (" + Decimal(status) + "): " +
        match Get(fields, "detail") case Some(d) => PyStr(d) case None => UnknownError)
  {
  }

  /** Any other status whose body is not JSON shows the raw body text. */
  lemma UnreadableShowsText(status: nat, reason: string, text: string)
    requires status != 200
    ensures Attempt(Responded(status, Undecodable(reason), text)) == Error(UnexpectedResponsePrefix + text)
  {
  }

  /** A connection error shows the fixed "unreachable" message, whatever it
      says. */
  lemma ConnectionErrorIsUnreachable(description: string)
    ensures Attempt(Failed(Exc(ConnectionError, description))) == Error(UnreachableMessage)
  {
  }

  /** Every other exception raised by the call shows its own text. */
  lemma OtherFaultIsUnexpected(e: Exc)
    requires e.kind != ConnectionError
    ensures Attempt(Failed(e)) == Error(UnexpectedErrorPrefix + e.text)
  {
  }

  /** A body that does not decode on status 200 is not caught by any
      ValueError handler, so the decoder's message is shown as unexpected. */
  lemma UndecodableOkIsUnexpected(reason: string, text: string)
    ensures Attempt(Responded(200, Undecodable(reason), text)) == Error(UnexpectedErrorPrefix + reason)
  {
  }

  /** A JSON body that is not an object has no `.get`; on any status the
      resulting AttributeError escapes to the generic handler. */
  lemma NonObjectIsUnexpected(status: nat, v: Json, text: string)
    requires !v.JObject?
    ensures Attempt(Responded(status, Decoded(v), text)) ==
      Error(UnexpectedErrorPrefix + NoGetMessage(v))
  {
  }
}
