/** `pollQwenTaskResult`: a bounded loop that asks for the status of an
    asynchronous task until it yields an image. The two-second pause before
    each attempt is not modelled; attempts are. */
module Poller {
  import opened Wrappers
  import opened JsText
  import opened ProviderTypes

  /** The attempt bound the server passes (the default of `maxAttempts`). */
  const MaxPollAttempts: nat := 30
  const Succeeded: string := "SUCCEEDED"
  const Failed: string := "FAILED"
  /** The error thrown for a FAILED status. */
  const TaskFailed: Failure := Failure(None, "任务执行失败")
  /** The error thrown when the loop ends without a result. */
  const TaskTimedOut: Failure := Failure(None, "任务超时")

  /** What one attempt does: return an image reference, go on polling, or
      throw inside the loop's `try`. */
  datatype Attempt = Found(imageUrl: string) | Pending | Raised(failure: Failure)

  /** One attempt's reading of a poll reply. A SUCCEEDED reply yields the
      first result's `image` as a PNG data URL, else its `url`; with neither
      it is pending like any other status. */
  function Inspect(reply: Result<TaskReply, Failure>): (a: Attempt)
    ensures a.Found? ==> reply.Ok? && reply.value.status == Some(Succeeded)
                         && reply.value.firstResult.Some?
    ensures a.Raised? <==> reply.Err? || reply.value.status == Some(Failed)
    ensures reply.Err? ==> a == Raised(reply.error)
    ensures reply.Ok? && reply.value.status == Some(Failed) ==> a == Raised(TaskFailed)
    ensures reply.Ok? && reply.value.status == Some(Succeeded) ==>
              match reply.value.firstResult
              case None => a.Pending?
              case Some(r) =>
                if Truthy(r.image) then a == Found(PngDataPrefix + r.image.value)
                else if Truthy(r.url) then a == Found(r.url.value)
                else a.Pending?
  {
    match reply
    case Err(f) => Raised(f)
    case Ok(r) =>
      if r.status == Some(Succeeded) then
        match r.firstResult
        case None => Pending
        case Some(res) =>
          if Truthy(res.image) then Found(PngDataPrefix + res.image.value)
          else if Truthy(res.url) then Found(res.url.value)
          else Pending
      else if r.status == Some(Failed) then Raised(TaskFailed)
      else Pending
  }

  /** The outcome of polling: the image reference or the error thrown, and how
      many polls were made. */
  datatype PollOutcome = PollOutcome(result: Result<string, Failure>, attempts: nat)

  /** Polling from attempt `i` on. An error raised by an attempt is swallowed
      unless it is the last attempt, where it is rethrown. */
  function PollFrom(replies: seq<Result<TaskReply, Failure>>, maxAttempts: nat, i: nat): (r: PollOutcome)
    requires i <= maxAttempts <= |replies|
    ensures i <= r.attempts <= maxAttempts
    ensures r.result.Ok? ==> i < r.attempts && Inspect(replies[r.attempts - 1]) == Found(r.result.value)
                             && forall j :: i <= j < r.attempts - 1 ==> !Inspect(replies[j]).Found?
    ensures r.result.Err? ==> r.attempts == maxAttempts
    decreases maxAttempts - i
  {
    if i == maxAttempts then PollOutcome(Err(TaskTimedOut), maxAttempts)
    else
      match Inspect(replies[i])
      case Found(url) => PollOutcome(Ok(url), i + 1)
      case Pending => PollFrom(replies, maxAttempts, i + 1)
      case Raised(f) =>
        if i == maxAttempts - 1 then PollOutcome(Err(f), i + 1)
        else PollFrom(replies, maxAttempts, i + 1)
  }

  /** The specification of the poller: `replies[i]` answers the i-th poll. */
  function PollTask(replies: seq<Result<TaskReply, Failure>>, maxAttempts: nat): (r: PollOutcome)
    requires maxAttempts <= |replies|
    ensures r.attempts <= maxAttempts
    ensures r.result.Ok? ==> 0 < r.attempts && Inspect(replies[r.attempts - 1]) == Found(r.result.value)
                             && NoneFoundBefore(replies, r.attempts - 1)
    ensures r.result.Err? ==> r.attempts == maxAttempts
  {
    PollFrom(replies, maxAttempts, 0)
  }

  /** The counted loop with early returns and a catch that rethrows only on
      the last attempt. */
  method PollTaskResult(replies: seq<Result<TaskReply, Failure>>, maxAttempts: nat)
    returns (result: Result<string, Failure>, attempts: nat)
    requires maxAttempts <= |replies|
    ensures PollOutcome(result, attempts) == PollTask(replies, maxAttempts)
    ensures attempts <= maxAttempts
    ensures result.Ok? ==> 0 < attempts && Inspect(replies[attempts - 1]) == Found(result.value)
    ensures result.Err? ==> attempts == maxAttempts
  {
    for i := 0 to maxAttempts
      invariant PollFrom(replies, maxAttempts, i) == PollTask(replies, maxAttempts)
    {
      match Inspect(replies[i])
      case Found(url) =>
        return Ok(url), i + 1;
      case Pending =>
      case Raised(f) =>
        if i == maxAttempts - 1 {
          return Err(f), i + 1;
        }
    }
    return Err(TaskTimedOut), maxAttempts;
  }

  /** No attempt before `k` found an image. */
  predicate NoneFoundBefore(replies: seq<Result<TaskReply, Failure>>, k: nat)
    requires k <= |replies|
  {
    forall j :: 0 <= j < k ==> !Inspect(replies[j]).Found?
  }

  /** Polling returns the image of the first attempt that finds one, after
      exactly that many polls: a FAILED status or a request error on any
      earlier attempt did not stop it. */
  lemma {:induction false} FirstFoundWins(replies: seq<Result<TaskReply, Failure>>, maxAttempts: nat, k: nat)
    requires k < maxAttempts <= |replies|
    requires Inspect(replies[k]).Found? && NoneFoundBefore(replies, k)
    ensures PollTask(replies, maxAttempts) == PollOutcome(Ok(Inspect(replies[k]).imageUrl), k + 1)
  {
    FoundFrom(replies, maxAttempts, 0, k);
  }

  lemma {:induction false} FoundFrom(replies: seq<Result<TaskReply, Failure>>, maxAttempts: nat, i: nat, k: nat)
    requires i <= k < maxAttempts <= |replies|
    requires Inspect(replies[k]).Found? && NoneFoundBefore(replies, k)
    ensures PollFrom(replies, maxAttempts, i) == PollOutcome(Ok(Inspect(replies[k]).imageUrl), k + 1)
    decreases k - i
  {
    if i < k {
      FoundFrom(replies, maxAttempts, i + 1, k);
    }
  }

  /** Without any attempt finding an image, all `maxAttempts` polls are made;
      the last attempt's error is rethrown, otherwise the timeout error is
      thrown (at once when `maxAttempts` is 0). */
  lemma {:induction false} NothingFound(replies: seq<Result<TaskReply, Failure>>, maxAttempts: nat)
    requires maxAttempts <= |replies| && NoneFoundBefore(replies, maxAttempts)
    ensures PollTask(replies, maxAttempts).attempts == maxAttempts
    ensures PollTask(replies, maxAttempts).result ==
              if maxAttempts > 0 && Inspect(replies[maxAttempts - 1]).Raised?
              then Err(Inspect(replies[maxAttempts - 1]).failure)
              else Err(TaskTimedOut)
  {
    NothingFoundFrom(replies, maxAttempts, 0);
  }

  lemma {:induction false} NothingFoundFrom(replies: seq<Result<TaskReply, Failure>>, maxAttempts: nat, i: nat)
    requires i <= maxAttempts <= |replies| && NoneFoundBefore(replies, maxAttempts)
    ensures PollFrom(replies, maxAttempts, i).attempts == maxAttempts
    ensures PollFrom(replies, maxAttempts, i).result ==
              if i < maxAttempts && Inspect(replies[maxAttempts - 1]).Raised?
              then Err(Inspect(replies[maxAttempts - 1]).failure)
              else Err(TaskTimedOut)
    decreases maxAttempts - i
  {
    if i < maxAttempts - 1 {
      NothingFoundFrom(replies, maxAttempts, i + 1);
    }
  }

  /** A task that succeeds on its third poll out of five is polled three times. */
  lemma ThirdOfFive(replies: seq<Result<TaskReply, Failure>>, url: string)
    requires |replies| == 5 && url != ""
    requires forall j :: 0 <= j < 2 ==> replies[j] == Ok(TaskReply(Some("RUNNING"), None))
    requires replies[2] == Ok(TaskReply(Some(Succeeded), Some(TaskResult(None, Some(url)))))
    ensures PollTask(replies, 5) == PollOutcome(Ok(url), 3)
  {
    FirstFoundWins(replies, 5, 2);
  }

  /** A task that never reaches a terminal state within three polls times out
      after exactly three. */
  lemma NeverTerminal(replies: seq<Result<TaskReply, Failure>>)
    requires |replies| == 3
    requires forall j :: 0 <= j < 3 ==> replies[j] == Ok(TaskReply(Some("RUNNING"), None))
    ensures PollTask(replies, 3) == PollOutcome(Err(TaskTimedOut), 3)
  {
    NothingFound(replies, 3);
  }
}
