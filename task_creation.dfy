/**
 * The outcome of the upstream task-creation call in `handleImageGeneration`:
 * which error the worker throws for a failed reply, or the task id it goes
 * on to poll.
 */
module TaskCreation {
  import opened Wrappers
  import JsText

  /**
   * The fields the worker reads from a JSON reply body. Truthiness is
   * recorded directly: `success` is whether `success` is truthy, and a
   * falsy or missing `task_id` is the empty string.
   */
  datatype ReplyJson = ReplyJson(success: bool, taskId: string, code: string, error: string)

  /**
   * What the create-task `fetch` yields: a rejected promise, or a response
   * with its status, its body text and that text parsed as JSON (`None` when
   * it is not JSON or is JSON `null`, so that reading a field throws).
   */
  datatype CreationReply =
    | Unreachable
    | Reply(status: int, text: string, json: Option<ReplyJson>)

  /** Each way the call can end. All but `Created` end the request with a 502. */
  datatype CreationOutcome =
    | Created(taskId: string)
    | RateLimited(upstreamText: string)
    | QuotaOrUnavailable(status: int)
    | CreateFailed(status: int, text: string)
    | NotAccepted(reply: ReplyJson)
    | ReplyUnreadable
    | NetworkFailure

  /** `response.ok`. */
  predicate IsOk(status: int) { 200 <= status <= 299 }

  /** The marker the upstream embeds in a 500 body when its billing or quota fails. */
  const QuotaMarker: string := "402"

  /**
   * The error branch for a non-OK reply. A 403 whose body carries
   * `code: "SENSITIVE_CONTENT"` builds a content-policy error, but it is
   * thrown inside a `try` whose empty `catch` discards it, so a 403 ends in
   * the generic message like any other status.
   */
  function NotOkOutcome(status: int, text: string): (o: CreationOutcome)
    requires !IsOk(status)
    ensures !o.Created?
  {
    if status == 429 then RateLimited(text)
    else if status == 500 && JsText.Includes(text, QuotaMarker) then QuotaOrUnavailable(status)
    else CreateFailed(status, text)
  }

  /** The whole decision, from the reply to the outcome. */
  function Classify(reply: CreationReply): (o: CreationOutcome)
    ensures o.Created? <==>
      reply.Reply? && IsOk(reply.status) && reply.json.Some?
      && reply.json.value.success && reply.json.value.taskId != ""
    ensures o.Created? ==> o.taskId == reply.json.value.taskId
  {
    match reply
    case Unreachable => NetworkFailure
    case Reply(status, text, json) =>
      if !IsOk(status) then NotOkOutcome(status, text)
      else
        match json
        case None => ReplyUnreadable
        case Some(j) =>
          if !j.success || j.taskId == "" then NotAccepted(j) else Created(j.taskId)
  }

  /** A 429 is reported as rate limiting and carries the upstream text unchanged. */
  lemma RateLimitedIff(reply: CreationReply)
    ensures Classify(reply).RateLimited? <==> reply.Reply? && reply.status == 429
    ensures Classify(reply).RateLimited? ==> Classify(reply).upstreamText == reply.text
  {
  }

  /** Only a 500 whose body contains `"402"` is reported as a quota failure. */
  lemma QuotaIff(reply: CreationReply)
    ensures Classify(reply).QuotaOrUnavailable? <==>
      reply.Reply? && reply.status == 500 && JsText.Includes(reply.text, QuotaMarker)
  {
  }

  /**
   * Every other non-OK status ends in the generic message with the status
   * and the body text, a 403 included, whatever its body says.
   */
  lemma GenericFailure(reply: CreationReply)
    requires reply.Reply? && !IsOk(reply.status) && reply.status != 429
    requires !(reply.status == 500 && JsText.Includes(reply.text, QuotaMarker))
    ensures Classify(reply) == CreateFailed(reply.status, reply.text)
  {
  }

  /** The content-policy rejection never reaches the caller. */
  lemma SensitiveContentIsSwallowed(text: string, error: string, success: bool, taskId: string)
    ensures Classify(Reply(403, text, Some(ReplyJson(success, taskId, "SENSITIVE_CONTENT", error))))
         == CreateFailed(403, text)
  {
  }

  /** A 2xx reply without a truthy `success` and `task_id` fails without a task to poll. */
  lemma AcceptedNeedsSuccessAndId(status: int, text: string, j: ReplyJson)
    requires IsOk(status) && (!j.success || j.taskId == "")
    ensures Classify(Reply(status, text, Some(j))) == NotAccepted(j)
  {
  }
}
