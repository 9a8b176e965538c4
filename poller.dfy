/**
 * `waitForCompletion`: polls the upstream task-status endpoint until the
 * task completes or fails, or until the poll timeout has elapsed. The clock
 * readings and the replies are inputs; the sleep between polls is the gap
 * between two consecutive clock readings.
 */
module Poller {
  import opened Wrappers

  const PollIntervalMs: int := 2000
  const PollTimeoutMs: int := 180000

  /** The most status polls one request can make (90). */
  const MaxPolls: nat := PollTimeoutMs / PollIntervalMs

  /**
   * The fields the worker reads from a status reply: `status`, `data` (`None`
   * when falsy; any array is truthy, the empty one included) and
   * `params.prompt` (`None` when `params` is missing, so reading it throws).
   */
  datatype StatusReply = StatusReply(status: string, data: Option<seq<string>>, prompt: Option<string>)

  /** A status body: not JSON (or JSON `null`), or the fields above. */
  datatype StatusBody = Unparsable | Parsed(reply: StatusReply)

  /** One status `fetch`: rejected, or a response with its HTTP status and body. */
  datatype Observation = NetworkError | Received(code: int, body: StatusBody)

  datatype PollOutcome =
    | Completed(prompt: string, images: seq<string>)
    | TaskFailed
    | TimedOut
    | Threw

  /**
   * What one poll decides: `None` to sleep and poll again, or the outcome
   * that ends the loop. A failed `fetch` and an unreadable OK body throw out
   * of the loop; a non-OK status is skipped.
   */
  function Interpret(o: Observation): (r: Option<PollOutcome>)
    ensures r != Some(TimedOut)
    ensures r.None? <==>
      o.Received? && (!(200 <= o.code <= 299)
        || (o.body.Parsed? && o.body.reply.status != "failed"
            && !(o.body.reply.status == "completed" && o.body.reply.data.Some?)))
  {
    match o
    case NetworkError => Some(Threw)
    case Received(code, body) =>
      if !(200 <= code <= 299) then None
      else
        match body
        case Unparsable => Some(Threw)
        case Parsed(reply) =>
          if reply.status == "completed" && reply.data.Some? then
            match reply.prompt
            case Some(p) => Some(Completed(p, reply.data.value))
            case None => Some(Threw)
          else if reply.status == "failed" then Some(TaskFailed)
          else None
  }

  /** A completed reply is returned with its prompt and image list unchanged. */
  lemma CompletedCarriesReply(o: Observation, p: string, images: seq<string>)
    ensures Interpret(o) == Some(Completed(p, images)) <==>
      o.Received? && 200 <= o.code <= 299
      && o.body == Parsed(StatusReply("completed", Some(images), Some(p)))
  {
  }

  /** `failed` on an OK reply stops the loop at once. */
  lemma FailedStops(code: int, data: Option<seq<string>>, prompt: Option<string>)
    requires 200 <= code <= 299
    ensures Interpret(Received(code, Parsed(StatusReply("failed", data, prompt)))) == Some(TaskFailed)
  {
  }

  /**
   * The clock the loop reads: `start` is taken before the loop and
   * `clock[k]` at the head of iteration `k`. Time never runs backwards, and
   * each iteration's poll plus its sleep take at least the poll interval.
   */
  ghost predicate ClockAdvances(start: int, clock: seq<int>)
  {
    |clock| > MaxPolls
    && start <= clock[0]
    && forall k :: 0 <= k < |clock| - 1 ==> clock[k] + PollIntervalMs <= clock[k + 1]
  }

  /** After `k` iterations at least `k` poll intervals have passed. */
  lemma {:induction false} ElapsedAtLeast(start: int, clock: seq<int>, k: nat)
    requires ClockAdvances(start, clock) && k < |clock|
    ensures clock[k] - start >= PollIntervalMs * k
  {
    if k > 0 {
      ElapsedAtLeast(start, clock, k - 1);
    }
  }

  /** The loop head sees the timeout by iteration `MaxPolls` at the latest. */
  lemma DeadlineReached(start: int, clock: seq<int>)
    requires ClockAdvances(start, clock)
    ensures clock[MaxPolls] - start >= PollTimeoutMs
  {
    ElapsedAtLeast(start, clock, MaxPolls);
  }

  /**
   * The poll loop. `polls` is the number of status requests made. The loop
   * keeps polling while the elapsed time at its head is under the timeout,
   * returns on the first reply that decides the task, and otherwise reports
   * the timeout; it never makes more than `MaxPolls` polls.
   */
  method WaitForCompletion(start: int, clock: seq<int>, replies: seq<Observation>)
    returns (outcome: PollOutcome, polls: nat)
    requires ClockAdvances(start, clock)
    requires |replies| >= MaxPolls
    ensures polls <= MaxPolls
    ensures forall j :: 0 <= j < polls ==> clock[j] - start < PollTimeoutMs
    ensures forall j :: 0 <= j < polls - 1 ==> Interpret(replies[j]).None?
    ensures outcome == TimedOut <==>
      clock[polls] - start >= PollTimeoutMs && (polls == 0 || Interpret(replies[polls - 1]).None?)
    ensures outcome != TimedOut ==> polls > 0 && Interpret(replies[polls - 1]) == Some(outcome)
  {
    polls := 0;
    while clock[polls] - start < PollTimeoutMs
      invariant polls <= MaxPolls
      invariant clock[polls] - start >= PollIntervalMs * polls
      invariant forall j :: 0 <= j < polls ==> clock[j] - start < PollTimeoutMs
      invariant forall j :: 0 <= j < polls ==> Interpret(replies[j]).None?
      decreases MaxPolls - polls
    {
      var step := Interpret(replies[polls]);
      polls := polls + 1;
      if step.Some? {
        return step.value, polls;
      }
    }
    outcome := TimedOut;
  }
}
