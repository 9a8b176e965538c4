# freeai-2-api worker — a Dafny model of its decision logic

The worker is a Cloudflare Worker that puts an OpenAI-style
`/v1/images/generations` endpoint in front of an asynchronous third-party
image backend. It checks the request, resolves the requested `size` to one of
five aspect-ratio buckets, creates an upstream task, polls it until it
completes, fails or times out, and turns the result into
`{created, data: [{url, revised_prompt}]}` or an error envelope.

This project models the logic between the network calls in `worker.js`:

- `JsText` — the JavaScript string built-ins that logic relies on.
  `split` with a one-character separator comes with its inverse `Join`.
  `Number` covers decimal digit strings only: `""` is 0 and any other
  character gives NaN. `trim` uses the full ECMAScript whitespace set.
  `startsWith` and `includes` are also here.
- `AspectRatio` — `sizeToAspectRatio`.
  - `SizeToAspectRatio` is the table scan as a method with a loop. It is
    proved equal to the function `AspectRatioOf`.
  - The result is proved to satisfy the declarative predicate `IsNearest`
    (no bucket is closer, and every earlier bucket is strictly farther). That
    predicate has at most one solution.
  - Ratios are exact `real`s. A zero height gives a non-finite quotient, no
    JavaScript `<` against it succeeds, and the initial `"1:1"` is kept.
  - `AspectRatioExamples` works through `"0x0"`, `"100"`, `"16x9"` and the
    tie `"7x8"`.
- `TaskCreation` — how the task-creation reply becomes an error or a task id
  (`Classify`).
- `Poller` — `waitForCompletion`, as a method over a sequence of clock
  readings and a sequence of status replies.
  - A reading is taken at each loop head.
  - The model requires each poll plus its sleep to take at least the 2000 ms
    poll interval.
- `Translate` — the OpenAI success body.
- `Handler` — the pure decision made by `fetch`, `handleApi` and
  `handleImageGeneration`.
  - Inputs: the method, the path, the `Authorization` header, the body fields,
    the master key, and what the upstream answers.
  - Output: the status and payload, plus the list of upstream calls the
    request causes, in order.
  - The poll outcome enters as an input; it is what
    `Poller.WaitForCompletion` computes.

## Where the code differs from its intent

The model follows the code.

- The dashboard text at worker.js:290 tells users that prompts with
  sensitive content are rejected, and worker.js:132-137 builds a
  content-policy error for a 403 with `code: "SENSITIVE_CONTENT"`. That
  error is thrown inside a `try` whose empty `catch` is meant for JSON
  parse failures (worker.js:138) and also discards it. The request
  then ends with the generic "create task failed" message, as every other
  status does (`TaskCreation.SensitiveContentIsSwallowed`).
- A size with a zero height, `"0x0"` included, is not rejected as
  unresolvable. `0/0` is NaN and `n/0` is Infinity, nothing compares below
  them, and the worker answers `"1:1"`
  (`AspectRatioExamples.ZeroByZeroIsSquare`).
- A prompt of whitespace only is not rejected. The only check is `!prompt`
  (worker.js:105), so `"  "` passes and is sent upstream trimmed to `""`
  (`Handler.WhitespacePromptIsSentEmpty`).
- The 400 and 405 error bodies carry no `type` field (`Untyped` here). They
  are not `invalid_request_error`.
- The 404 for an unknown top-level path has type `invalid_request_error`. The
  404 for an unknown API path has type `not_found`.
- The poll loop is not cancelled when the client disconnects: it runs until
  the task is decided or the timeout.

## Model

| member | source | states |
|---|---|---|
| `JsText.Split` | worker.js:238 | `split('x')` yields one more piece than there are separators, and no piece contains the separator |
| `JsText.JoinSplit` | worker.js:238 | joining the pieces with the separator gives back the original string |
| `JsText.SplitNoSeparator` | worker.js:238 | a size without `x` splits into a single piece |
| `JsText.SplitAtFirst` | worker.js:238 | the first piece runs up to the first `x`; the rest splits on its own |
| `JsText.ToNumber` | worker.js:238-239 | `Number(part)` is NaN exactly when the part has a non-digit character |
| `JsText.ToNumberShow` | worker.js:238 | `Number` reads back every decimal numeral `String` writes |
| `JsText.Trim` | worker.js:115 | `prompt.trim()` is the slice left after removing leading and trailing whitespace; what it drops is whitespace and what it keeps has no whitespace at either end |
| `JsText.TrimAllSpace` | worker.js:115 | a prompt made only of whitespace trims to the empty string |
| `AspectRatio.SizeToAspectRatio` | worker.js:237-250 | the table scan with its running `closest` and `minDiff` returns exactly `AspectRatioOf(size)` |
| `AspectRatio.NearestIsClosestFirst` | worker.js:243-248 | a scan that replaces the kept bucket only on a strictly smaller distance returns a bucket at least as close as every entry, and strictly closer than every entry before its position |
| `AspectRatio.NearestIsNearest` | worker.js:242-248 | the scan over the five-bucket table returns the nearest bucket, ties going to the first in the order 1:1, 4:3, 3:4, 16:9, 9:16 |
| `AspectRatio.NearestUnique` | worker.js:242-248 | only one bucket is nearest in that sense, so the tie rule fixes the answer |
| `AspectRatio.NullIff` | worker.js:238-239 | the resolver returns `null` exactly when the split does not give two parts or a part is NaN |
| `AspectRatio.ResolvesToNearest` | worker.js:240-249 | for a positive height the result is the nearest bucket to `width / height`, ties to the earlier one |
| `AspectRatio.ZeroHeightIsSquare` | worker.js:241-249 | a zero height gives `"1:1"`, not `null` |
| `AspectRatioExamples.ZeroByZeroIsSquare` | worker.js:237-250 | `"0x0"` resolves to `"1:1"` |
| `AspectRatioExamples.SinglePartIsNull` | worker.js:239 | `"100"` resolves to `null` |
| `AspectRatioExamples.SixteenByNine` | worker.js:237-250 | `"16x9"` resolves to `"16:9"` |
| `AspectRatioExamples.TieKeepsEarlierBucket` | worker.js:246-247 | `"7x8"` is exactly 0.125 from both 1:1 and 3:4, and the strict `<` keeps 1:1 |
| `TaskCreation.NotOkOutcome` | worker.js:127-146 | every non-OK creation reply ends in an error and never yields a task id |
| `TaskCreation.Classify` | worker.js:127-152 | a task id is produced exactly for a 2xx reply whose JSON has truthy `success` and `task_id`, and it is that `task_id` |
| `TaskCreation.RateLimitedIff` | worker.js:129-131 | the rate-limit error occurs exactly for status 429 and embeds the upstream body text |
| `TaskCreation.QuotaIff` | worker.js:140-144 | the quota/unavailable error occurs exactly for status 500 with `"402"` in the body |
| `TaskCreation.GenericFailure` | worker.js:145 | every other non-OK status ends in the generic error carrying the status and the body text |
| `TaskCreation.SensitiveContentIsSwallowed` | worker.js:132-139 | a 403 with `code: "SENSITIVE_CONTENT"` still ends in the generic error, because the empty `catch` swallows the throw |
| `TaskCreation.AcceptedNeedsSuccessAndId` | worker.js:148-151 | a 2xx reply without truthy `success` and `task_id` fails, leaving no task to poll |
| `Poller.Interpret` | worker.js:183-191 | one poll continues exactly on a non-OK status, or on an OK reply that is neither `failed` nor `completed` with data; otherwise it ends the loop, never with the timeout |
| `Poller.CompletedCarriesReply` | worker.js:185-187 | the loop completes exactly on an OK `completed` reply with data, and it carries `params.prompt` and `data` unchanged |
| `Poller.FailedStops` | worker.js:188-190 | an OK `failed` reply stops the loop with the task-failed error |
| `Poller.ElapsedAtLeast` | worker.js:176-193 | after k iterations, at least k poll intervals have elapsed since the start |
| `Poller.DeadlineReached` | worker.js:28-29 | by iteration `POLL_TIMEOUT_MS / POLL_INTERVAL_MS` = 90 the elapsed time has reached the timeout |
| `Poller.WaitForCompletion` | worker.js:174-196 | the loop polls only while under the timeout. It returns the outcome of the first deciding reply, or the timeout once the limit is reached with every earlier reply non-deciding. It makes at most 90 polls |
| `Translate.PairWithPrompt` | worker.js:159-162 | the `data` list has one entry per image, in order; entry i has `url = images[i]` and `revised_prompt = prompt` |
| `Translate.UrlsOfPaired` | worker.js:159-162 | reading the URLs back from `data` gives the upstream image list |
| `Translate.ToOpenAI` | worker.js:157-163 | `created` is the current time in whole seconds, and `data` pairs each image with the echoed prompt |
| `Handler.CreateAndPoll` | worker.js:114-170 | the creation call gets the trimmed prompt and the bucket key. Polling follows only a created task. The result is 200 with the translated body exactly when the task was created and completed; otherwise it is 502 `upstream_error` whose message is the creation outcome, or the poll outcome once a task exists |
| `Handler.HandleImageGeneration` | worker.js:96-172 | the generation handler answers only 200, 400, 405 or 502; 502 is exactly the `upstream_error` envelope; only a POST causes upstream calls; a 502 before any upstream call is the runtime error of an unparsable body, a non-string size or a non-string prompt |
| `Handler.HandleApi` | worker.js:57-94 | the API handler answers only the listed statuses; apart from the health probe, upstream calls need the key and a POST |
| `Handler.Fetch` | worker.js:33-53 | every request gets one of 200, 204, 400, 401, 404, 405, 502; 502 is exactly the `upstream_error` envelope; apart from the health probe, upstream calls need the key and a POST |
| `Handler.UiPathsAreNotApi` | worker.js:41-46 | the UI and favicon paths are never routed to the API handler |
| `Handler.AuthorizedIff` | worker.js:82-85 | the key check accepts exactly the header `"Bearer " + key` |
| `Handler.PreflightBeforeAuth` | worker.js:58-60 | `OPTIONS` on an API path is answered 204 before any key check, with no upstream call |
| `Handler.HealthNeedsNoKey` | worker.js:62-80 | `/health` needs no key, answers 200 with the probe's verdict, and makes only the probe call |
| `Handler.MissingKeyRejected` | worker.js:82-85 | any other API request without the key gets 401 `invalid_api_key` and causes no upstream call |
| `Handler.OnlyGenerationRoutes` | worker.js:89-93 | with the key, API paths other than the two generation aliases get 404 |
| `Handler.ValidationOrder` | worker.js:97-115 | on a generation route the checks run in order, each before any upstream call: non-POST 405; a body that does not parse 502; falsy prompt 400; non-string size 502 (`split` throws); unresolvable size 400; non-string prompt 502 (`trim` throws) |
| `Handler.UnknownPathNotFound` | worker.js:47-50 | a path that is not the UI, the favicon or an API path gets 404 with type `invalid_request_error` |
| `Handler.CreateOnlyAfterValidation` | worker.js:105-124 | a task is created only for an authorised POST to a generation route with a non-empty string prompt and a resolvable size, using the trimmed prompt and the bucket's key |
| `Handler.PollOnlyAfterCreated` | worker.js:148-154 | a task is polled only after creation returned that task id, right after the creation call |
| `Handler.AfterCreationSuccessOr502` | worker.js:148-170 | once the creation call is made, the request ends in the success body built from the completed poll or in a 502 `upstream_error` |
| `Handler.FailureMessageReachesClient` | worker.js:127-170 | after the creation call, a 502 carries the thrown error: the creation outcome when no task was created, otherwise the poll outcome |
| `Handler.QuotaMessageReachesClient` | worker.js:140-144 | a 500 creation reply containing `"402"` reaches the client as a 502 with the quota message |
| `Handler.WhitespacePromptIsSentEmpty` | worker.js:105-117 | a whitespace-only prompt with any resolvable size passes validation and is sent upstream as `""` with that size's bucket key |

Specification functions without a contract of their own, used by the rows
above:
- `AspectRatio.ParseSize` and `AspectRatio.AspectRatioOf` (worker.js:238-249)
- `AspectRatio.Nearest` (the scan, worker.js:243-248) and `AspectRatio.IsNearest`
- `Handler.Authorized` (worker.js:83)
- `Handler.HealthOf` (worker.js:70)

## Left out

- The developer UI (`handleUI`, worker.js:254-323) is presentation. `/` is
  modelled only as "the UI page, 200".
- The network calls themselves are inputs: the health probe with its 2-second
  abort, task creation and the status polls. Each becomes an abstract reply
  (`Handler.Probe`, `TaskCreation.CreationReply`, `Poller.Observation`).
- `setTimeout` sleeping and `Date.now()` become a sequence of clock readings.
- `crypto.randomUUID`, the request id, the `X-Worker-Trace-ID` header and
  `console.error` are not modelled. They are nondeterministic or only log.
- JSON parsing of the request and upstream bodies is not modelled. Parsed
  bodies are datatypes recording the fields the code reads and their
  truthiness. A parse failure (or JSON `null`) is recorded only as "throws",
  which ends in 502.
- Error messages are datatypes, not their (Chinese) text. Each carries the
  values the text embeds.
- `JsText.ToNumber`: does not model the rest of JavaScript's `Number`
  grammar (surrounding whitespace, signs, decimals, exponents, `"Infinity"`,
  hex). A size such as `" 16x9"` or `"1.5x1"` is `null` here but is resolved
  by the worker.
- `AspectRatio.SizeToAspectRatio`: ratios and distances are exact reals, not
  IEEE-754 doubles. For `"7x6"` the model keeps 1:1 on the exact tie, but the
  worker returns `"4:3"`, because in doubles the 4:3 distance is the smaller one.
- `AspectRatio.SizeToAspectRatio`: a number too large for a double is not
  modelled. A width or height of more than about 309 digits is Infinity in
  the worker. For example, `"1"` followed by 400 zeros, then `"x1"`, gives
  `"1:1"` in the worker and 16:9 here.
- Header construction is not modelled (`createUpstreamHeaders`,
  `createJsonResponse`, `handleCorsPreflight`, worker.js:200-235). It is
  constant boilerplate.
- The override of the master key from the environment (worker.js:35-37) is
  not modelled. The key is a parameter of `Handler.Fetch`.
- The request's `n` field is not modelled: it is read but never used. The
  model-name settings are unused by this logic.
- `Poller.StatusReply`: a `params` object without a `prompt` gives
  `revised_prompt: undefined` in the worker. Here `params` is either absent
  (reading `params.prompt` throws) or carries a prompt string.
- A truthy non-array `data` is not modelled.
- `Poller.WaitForCompletion`: requires the clock to advance by at least the
  poll interval per iteration and enough readings and replies for 90 polls.
  Without an advancing clock the worker's loop need not terminate.
- `Handler.Fetch`: the poll outcome is an input, not the result of running
  `Poller.WaitForCompletion` inside the function. The call list records the
  whole polling phase as one `PollTask` entry; the number of status requests
  is bounded by `Poller.WaitForCompletion`.
- Cancelling the poll when the client disconnects is not modelled. The code
  does not implement it.
