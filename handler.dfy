/**
 * The request pipeline of the worker's `fetch` entry point: route
 * selection, CORS preflight, the unauthenticated health check, the Bearer
 * key check, validation of the generation request, and the conversion of
 * every later failure into a 502. The upstream replies are inputs; the
 * result records the response and the upstream calls made, in order.
 */
module Handler {
  import opened Wrappers
  import JsText
  import AspectRatio
  import TaskCreation
  import Poller
  import Translate

  // ---------------------------------------------------------------------------
  // Inputs
  // ---------------------------------------------------------------------------

  /** The `prompt` field of the JSON body, by how the worker treats it. */
  datatype PromptField =
    | NoPrompt        // missing, or a falsy non-string value
    | Text(text: string)
    | OtherTruthy     // a truthy value that is not a string: `trim` is not a function

  /** The `size` field: missing (defaults to `"1024x1024"`), a string, or anything else. */
  datatype SizeField = NoSize | SizeText(text: string) | OtherSize

  /** `await request.json()` and its destructuring: they throw, or yield the fields. */
  datatype Body = Unparsable | Fields(prompt: PromptField, size: SizeField)

  datatype Request = Request(httpMethod: string, path: string, authorization: Option<string>, body: Body)

  /** The health check's `HEAD` probe of the upstream: answered with a status, or rejected / timed out. */
  datatype Probe = ProbeAnswered(status: int) | ProbeFailed

  /**
   * What the upstream would answer: the health probe, the task-creation
   * reply, the outcome of the poll loop and the clock when the success
   * body is built.
   */
  datatype Upstream = Upstream(
    probe: Probe,
    creation: TaskCreation.CreationReply,
    poll: Poller.PollOutcome,
    nowMs: nat)

  // ---------------------------------------------------------------------------
  // Outputs
  // ---------------------------------------------------------------------------

  /** An upstream request: the health probe, task creation, or the status polling of a task. */
  datatype Call = HeadProbe | CreateTask(prompt: string, aspectRatio: string) | PollTask(taskId: string)

  datatype UpstreamStatus = Online | Offline(status: int) | NoAnswer

  /** The `type` of an error envelope; `Untyped` where the worker sets none. */
  datatype ErrorType = InvalidRequestError | InvalidApiKey | NotFound | Untyped | UpstreamError

  /** Why a 502 was returned: a runtime `TypeError`, the creation outcome, or the poll outcome. */
  datatype Cause =
    | RuntimeError
    | Creation(creation: TaskCreation.CreationOutcome)
    | Polling(poll: Poller.PollOutcome)

  datatype Message =
    | PathNotFound(path: string)
    | BadApiKey
    | UnsupportedApiPath(apiPath: string)
    | PostOnly
    | MissingPrompt
    | UnsupportedSize(size: string)
    | Thrown(cause: Cause)

  datatype Payload =
    | UiPage
    | NoBody
    | Health(upstreamStatus: UpstreamStatus)
    | Error(errorType: ErrorType, message: Message)
    | Images(images: Translate.ImagesResponse)

  datatype Response = Response(status: int, payload: Payload)

  datatype Exchange = Exchange(response: Response, calls: seq<Call>)

  const DefaultSize: string := "1024x1024"
  const BearerPrefix: string := "Bearer "

  // ---------------------------------------------------------------------------
  // Decisions
  // ---------------------------------------------------------------------------

  /** `!prompt`: a missing or falsy prompt, the empty string included. */
  predicate PromptIsFalsy(p: PromptField)
  {
    p.NoPrompt? || p == Text("")
  }

  /** Paths the entry point hands to the API handler. */
  predicate IsApiPath(path: string)
  {
    JsText.StartsWith(path, "/v1/") || path == "/generate" || path == "/health"
  }

  /** The two aliases of the generation endpoint. */
  predicate IsGenerationPath(path: string)
  {
    path == "/v1/images/generations" || path == "/generate"
  }

  /** The key check: a non-empty header starting with `"Bearer "` whose remainder is the key. */
  predicate Authorized(header: Option<string>, key: string)
  {
    header.Some? && header.value != ""
    && JsText.StartsWith(header.value, BearerPrefix)
    && header.value[|BearerPrefix|..] == key
  }

  function HealthOf(probe: Probe): UpstreamStatus
  {
    match probe
    case ProbeFailed => NoAnswer
    case ProbeAnswered(status) => if TaskCreation.IsOk(status) then Online else Offline(status)
  }

  function Fail(status: int, t: ErrorType, m: Message, calls: seq<Call>): Exchange
  {
    Exchange(Response(status, Error(t, m)), calls)
  }

  /** A thrown error, caught at the end of the generation handler. */
  function BadGateway(cause: Cause, calls: seq<Call>): Exchange
  {
    Fail(502, UpstreamError, Thrown(cause), calls)
  }

  /**
   * Task creation, then polling, then the success body. Any failure is
   * thrown and answered with a 502.
   */
  function CreateAndPoll(prompt: string, bucket: AspectRatio.Bucket, up: Upstream): (ex: Exchange)
    ensures var create := CreateTask(JsText.Trim(prompt), AspectRatio.Key(bucket));
      ex.calls == match TaskCreation.Classify(up.creation)
                  case Created(taskId) => [create, PollTask(taskId)]
                  case _ => [create]
    ensures ex.response.status == 200 <==> TaskCreation.Classify(up.creation).Created? && up.poll.Completed?
    ensures ex.response.status == 200 ==>
      ex.response.payload == Images(Translate.ToOpenAI(up.nowMs, up.poll.prompt, up.poll.images))
    ensures ex.response.status != 200 ==>
      ex.response.status == 502 && ex.response.payload.Error? && ex.response.payload.errorType == UpstreamError
    ensures ex.response.status == 502 ==>
      ex.response.payload.message == Thrown(
        if TaskCreation.Classify(up.creation).Created? then Polling(up.poll)
        else Creation(TaskCreation.Classify(up.creation)))
  {
    var create := CreateTask(JsText.Trim(prompt), AspectRatio.Key(bucket));
    match TaskCreation.Classify(up.creation)
    case Created(taskId) =>
      var calls := [create, PollTask(taskId)];
      (match up.poll
       case Completed(revised, images) =>
         Exchange(Response(200, Images(Translate.ToOpenAI(up.nowMs, revised, images))), calls)
       case _ => BadGateway(Polling(up.poll), calls))
    case failure => BadGateway(Creation(failure), [create])
  }

  /** `handleImageGeneration`: method, body, prompt and size checks in that order. */
  function HandleImageGeneration(req: Request, up: Upstream): (ex: Exchange)
    ensures ex.response.status in {200, 400, 405, 502}
    ensures ex.response.status == 502 <==> ex.response.payload.Error? && ex.response.payload.errorType == UpstreamError
    ensures ex.calls != [] ==> req.httpMethod == "POST"
    ensures ex.response.status == 502 && ex.calls == [] ==>
      ex.response.payload.message == Thrown(RuntimeError)
      && req.httpMethod == "POST"
      && (req.body.Unparsable? || req.body.size.OtherSize? || req.body.prompt.OtherTruthy?)
  {
    if req.httpMethod != "POST" then Fail(405, Untyped, PostOnly, [])
    else
      match req.body
      case Unparsable => BadGateway(RuntimeError, [])
      case Fields(prompt, sizeField) =>
        if PromptIsFalsy(prompt) then Fail(400, Untyped, MissingPrompt, [])
        else if sizeField.OtherSize? then BadGateway(RuntimeError, [])
        else
          var size := if sizeField.NoSize? then DefaultSize else sizeField.text;
          match AspectRatio.AspectRatioOf(size)
          case None => Fail(400, Untyped, UnsupportedSize(size), [])
          case Some(bucket) =>
            if prompt.OtherTruthy? then BadGateway(RuntimeError, [])
            else CreateAndPoll(prompt.text, bucket, up)
  }

  /** `handleApi`: preflight, health, key check, then the generation routes. */
  function HandleApi(req: Request, key: string, up: Upstream): (ex: Exchange)
    ensures ex.response.status in {200, 204, 400, 401, 404, 405, 502}
    ensures ex.response.status == 502 <==> ex.response.payload.Error? && ex.response.payload.errorType == UpstreamError
    ensures ex.calls != [] ==>
      ex.calls == [HeadProbe] || (Authorized(req.authorization, key) && req.httpMethod == "POST")
  {
    if req.httpMethod == "OPTIONS" then Exchange(Response(204, NoBody), [])
    else if req.path == "/health" then Exchange(Response(200, Health(HealthOf(up.probe))), [HeadProbe])
    else if !Authorized(req.authorization, key) then Fail(401, InvalidApiKey, BadApiKey, [])
    else if IsGenerationPath(req.path) then HandleImageGeneration(req, up)
    else Fail(404, NotFound, UnsupportedApiPath(req.path), [])
  }

  /** The worker's `fetch`: what every request gets back and which upstream calls it causes. */
  function Fetch(req: Request, key: string, up: Upstream): (ex: Exchange)
    ensures ex.response.status in {200, 204, 400, 401, 404, 405, 502}
    ensures ex.response.status == 502 <==> ex.response.payload.Error? && ex.response.payload.errorType == UpstreamError
    ensures ex.calls != [] ==>
      ex.calls == [HeadProbe] || (Authorized(req.authorization, key) && req.httpMethod == "POST")
  {
    if req.path == "/" then Exchange(Response(200, UiPage), [])
    else if req.path == "/favicon.ico" then Exchange(Response(204, NoBody), [])
    else if IsApiPath(req.path) then HandleApi(req, key, up)
    else Fail(404, InvalidRequestError, PathNotFound(req.path), [])
  }

  // ---------------------------------------------------------------------------
  // Properties
  // ---------------------------------------------------------------------------

  /** The UI page and the favicon are never API paths. */
  lemma UiPathsAreNotApi(path: string)
    requires IsApiPath(path)
    ensures path != "/" && path != "/favicon.ico"
  {
    assert "/favicon.ico"[1] == 'f';
  }

  /** The key check accepts exactly the header `"Bearer " + key`. */
  lemma AuthorizedIff(header: Option<string>, key: string)
    ensures Authorized(header, key) <==> header == Some(BearerPrefix + key)
  {
    if header.Some? && JsText.StartsWith(header.value, BearerPrefix) {
      assert header.value == header.value[..|BearerPrefix|] + header.value[|BearerPrefix|..];
    }
    if header == Some(BearerPrefix + key) {
      assert (BearerPrefix + key)[..|BearerPrefix|] == BearerPrefix;
      assert (BearerPrefix + key)[|BearerPrefix|..] == key;
    }
  }

  /** A preflight on an API path is answered before any key check. */
  lemma PreflightBeforeAuth(req: Request, key: string, up: Upstream)
    requires req.httpMethod == "OPTIONS" && IsApiPath(req.path)
    requires req.path != "/" && req.path != "/favicon.ico"
    ensures Fetch(req, key, up) == Exchange(Response(204, NoBody), [])
  {
  }

  /** `/health` needs no key and only probes the upstream. */
  lemma HealthNeedsNoKey(req: Request, key: string, up: Upstream)
    requires req.path == "/health" && req.httpMethod != "OPTIONS"
    ensures Fetch(req, key, up) == Exchange(Response(200, Health(HealthOf(up.probe))), [HeadProbe])
  {
  }

  /** Any other API request without the key gets a 401 and causes no upstream call. */
  lemma MissingKeyRejected(req: Request, key: string, up: Upstream)
    requires IsApiPath(req.path) && req.path != "/health" && req.httpMethod != "OPTIONS"
    requires !Authorized(req.authorization, key)
    ensures Fetch(req, key, up) == Fail(401, InvalidApiKey, BadApiKey, [])
  {
    UiPathsAreNotApi(req.path);
  }

  /** With the key, only the two generation aliases are served. */
  lemma OnlyGenerationRoutes(req: Request, key: string, up: Upstream)
    requires IsApiPath(req.path) && req.path != "/health" && req.httpMethod != "OPTIONS"
    requires Authorized(req.authorization, key) && !IsGenerationPath(req.path)
    ensures Fetch(req, key, up) == Fail(404, NotFound, UnsupportedApiPath(req.path), [])
  {
    UiPathsAreNotApi(req.path);
  }

  /**
   * On a generation route with the key, the checks run in order (method,
   * prompt, size) and each rejection happens before any upstream call.
   */
  lemma ValidationOrder(req: Request, key: string, up: Upstream)
    requires IsGenerationPath(req.path) && req.httpMethod != "OPTIONS"
    requires Authorized(req.authorization, key)
    ensures req.httpMethod != "POST" ==> Fetch(req, key, up) == Fail(405, Untyped, PostOnly, [])
    ensures req.httpMethod == "POST" && req.body.Fields? && PromptIsFalsy(req.body.prompt) ==>
      Fetch(req, key, up) == Fail(400, Untyped, MissingPrompt, [])
    ensures req.httpMethod == "POST" && req.body.Fields? && !PromptIsFalsy(req.body.prompt)
            && req.body.size.SizeText? && AspectRatio.AspectRatioOf(req.body.size.text).None? ==>
      Fetch(req, key, up) == Fail(400, Untyped, UnsupportedSize(req.body.size.text), [])
    ensures req.httpMethod == "POST" && req.body.Unparsable? ==>
      Fetch(req, key, up) == Fail(502, UpstreamError, Thrown(RuntimeError), [])
    ensures req.httpMethod == "POST" && req.body.Fields? && !PromptIsFalsy(req.body.prompt)
            && req.body.size.OtherSize? ==>
      Fetch(req, key, up) == Fail(502, UpstreamError, Thrown(RuntimeError), [])
    ensures req.httpMethod == "POST" && req.body.Fields? && req.body.prompt.OtherTruthy?
            && req.body.size.SizeText? && AspectRatio.AspectRatioOf(req.body.size.text).Some? ==>
      Fetch(req, key, up) == Fail(502, UpstreamError, Thrown(RuntimeError), [])
  {
  }

  /** A path that is neither the UI, the favicon nor an API path gets 404 `invalid_request_error`. */
  lemma UnknownPathNotFound(req: Request, key: string, up: Upstream)
    requires req.path != "/" && req.path != "/favicon.ico" && !IsApiPath(req.path)
    ensures Fetch(req, key, up) == Fail(404, InvalidRequestError, PathNotFound(req.path), [])
  {
  }

  /**
   * Task creation is only attempted for an authorised POST to a generation
   * route whose prompt is a non-empty string and whose size resolves; the
   * upstream gets the trimmed prompt and the bucket's key.
   */
  lemma CreateOnlyAfterValidation(req: Request, key: string, up: Upstream, p: string, ratio: string)
    requires CreateTask(p, ratio) in Fetch(req, key, up).calls
    ensures Authorized(req.authorization, key) && IsGenerationPath(req.path) && req.httpMethod == "POST"
    ensures req.body.Fields? && req.body.prompt.Text? && req.body.prompt.text != ""
    ensures var size := if req.body.size.NoSize? then DefaultSize else req.body.size.text;
      req.body.size != OtherSize && AspectRatio.AspectRatioOf(size).Some?
      && ratio == AspectRatio.Key(AspectRatio.AspectRatioOf(size).value)
    ensures p == JsText.Trim(req.body.prompt.text)
  {
  }

  /**
   * A task is polled only when creation succeeded, and then right after the
   * creation call, with the task id the upstream returned.
   */
  lemma PollOnlyAfterCreated(req: Request, key: string, up: Upstream, taskId: string)
    requires PollTask(taskId) in Fetch(req, key, up).calls
    ensures TaskCreation.Classify(up.creation) == TaskCreation.Created(taskId)
    ensures |Fetch(req, key, up).calls| == 2 && Fetch(req, key, up).calls[0].CreateTask?
  {
  }

  /**
   * Once the task-creation call is made, the request ends either in the
   * success body built from the completed poll or in a 502 `upstream_error`.
   */
  lemma AfterCreationSuccessOr502(req: Request, key: string, up: Upstream, p: string, ratio: string)
    requires CreateTask(p, ratio) in Fetch(req, key, up).calls
    ensures var r := Fetch(req, key, up).response;
      (r.status == 200 && up.poll.Completed?
       && TaskCreation.Classify(up.creation).Created?
       && r.payload == Images(Translate.ToOpenAI(up.nowMs, up.poll.prompt, up.poll.images)))
      || (r.status == 502 && r.payload.Error? && r.payload.errorType == UpstreamError)
  {
  }

  /**
   * After the creation call, a 502 carries the error that was thrown: the
   * creation outcome when no task was created, otherwise the poll outcome.
   */
  lemma FailureMessageReachesClient(req: Request, key: string, up: Upstream, p: string, ratio: string)
    requires CreateTask(p, ratio) in Fetch(req, key, up).calls
    requires Fetch(req, key, up).response.status == 502
    ensures Fetch(req, key, up).response.payload == Error(UpstreamError, Thrown(
      if TaskCreation.Classify(up.creation).Created? then Polling(up.poll)
      else Creation(TaskCreation.Classify(up.creation))))
  {
  }

  /** A 500 reply whose body contains `"402"` reaches the client as the quota message. */
  lemma QuotaMessageReachesClient(req: Request, key: string, up: Upstream, p: string, ratio: string,
                                  text: string, json: Option<TaskCreation.ReplyJson>)
    requires CreateTask(p, ratio) in Fetch(req, key, up).calls
    requires up.creation == TaskCreation.Reply(500, text, json) && JsText.Includes(text, TaskCreation.QuotaMarker)
    ensures Fetch(req, key, up).response ==
      Response(502, Error(UpstreamError, Thrown(Creation(TaskCreation.QuotaOrUnavailable(500)))))
  {
  }

  /**
   * A prompt of whitespace only is truthy: it passes validation and is sent
   * upstream trimmed to the empty string.
   */
  lemma WhitespacePromptIsSentEmpty(req: Request, key: string, up: Upstream, s: string, z: string)
    requires IsGenerationPath(req.path) && req.httpMethod == "POST" && Authorized(req.authorization, key)
    requires req.body == Fields(Text(s), SizeText(z)) && AspectRatio.AspectRatioOf(z).Some? && s != []
    requires forall k :: 0 <= k < |s| ==> JsText.IsJsSpace(s[k])
    ensures Fetch(req, key, up).calls != []
    ensures Fetch(req, key, up).calls[0] == CreateTask("", AspectRatio.Key(AspectRatio.AspectRatioOf(z).value))
  {
  }
}
