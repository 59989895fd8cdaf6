/** What one POST can come back with, and the `while attempts <= max_retries`
    loop that `EnhancedApiClient.send_data` and `AsyncApiClient.send_data`
    share. The network is an oracle: `oracle(k)` is the outcome of the POST
    made when the attempt counter is k. */
module Retry {
  import opened Wrappers
  import opened Json
  import Errors

  /** A response as the clients read it. */
  datatype HttpResponse = HttpResponse(
    status: int,
    // the body text (`response.text`)
    text: string,
    // the body parsed as JSON, or the text of the ValueError parsing raised
    json: Result<Json, string>,
    // the Retry-After header, when the response has one
    retryAfter: Option<string>,
    // `str(e)` of the HTTP-status exception raised for this response
    errorText: string)

  /** The outcome of one POST. */
  datatype Attempt =
      // the call returned this response
    | Replied(response: HttpResponse)
      // the HTTP library raised its status exception for this response
      // (`requests.HTTPError`, `aiohttp.ClientResponseError`)
    | StatusRaised(response: HttpResponse)
    | TimedOut(text: string)
    | ConnectFailed(text: string)
      // any other exception, with its class name and `str(e)`
    | Crashed(className: string, text: string)

  /** What the loop body does with one outcome. `Retryable` is an outcome the
      client retries while attempts remain: `retryNow` is the delay it sleeps
      (or the exception sleeping raises) and `giveUp` what it raises once the
      attempts are used up. */
  datatype Step<T> =
    | Return(value: T)
    | Raise(error: Errors.Error)
    | Retryable(retryNow: Result<real, Errors.Error>, giveUp: Errors.Error)

  /** How a call ended: its value or exception, the number of POSTs, the
      delays slept, and whether control reached the code after the loop. */
  datatype Run<T> = Run(result: Result<T, Errors.Error>, posts: nat, sleeps: seq<real>, exitedLoop: bool)

  /** `retry_status_codes or [429, 500, 502, 503, 504]`: None and the empty
      list both select the default. */
  function RetryStatusCodes(given: Option<seq<int>>): (codes: seq<int>)
    ensures given.Some? && |given.value| > 0 ==> codes == given.value
    ensures given.None? || |given.value| == 0 ==> codes == [429, 500, 502, 503, 504]
  {
    if given.Some? && |given.value| > 0 then given.value else [429, 500, 502, 503, 504]
  }

  function Pow2(k: nat): (r: nat)
    ensures r >= 1
  {
    if k == 0 then 1 else 2 * Pow2(k - 1)
  }

  /** `retry_delay * (2 ** attempts)` */
  function Backoff(retryDelay: real, attempts: nat): (d: real)
    ensures retryDelay >= 0.0 ==> d >= 0.0
    ensures retryDelay < 0.0 ==> d < 0.0
  {
    retryDelay * (Pow2(attempts) as real)
  }

  /** The loop from attempt counter k on, `last` being the last outcome that
      was retried (`last_error`). */
  function Drive<T>(step: (Attempt, nat) -> Step<T>, maxRetries: int, oracle: nat -> Attempt,
                    postLoop: Option<Attempt> -> Errors.Error, k: nat, last: Option<Attempt>): (r: Run<T>)
    decreases if k <= maxRetries then maxRetries - k + 1 else 0
  {
    if k > maxRetries then Run(Err(postLoop(last)), 0, [], true)
    else
      match step(oracle(k), k)
      case Return(v) => Run(Ok(v), 1, [], false)
      case Raise(e) => Run(Err(e), 1, [], false)
      case Retryable(now, giveUp) =>
        if k < maxRetries then
          if now.Err? then Run(Err(now.error), 1, [], false)
          else
            var rest := Drive(step, maxRetries, oracle, postLoop, k + 1, Some(oracle(k)));
            Run(rest.result, rest.posts + 1, [now.value] + rest.sleeps, rest.exitedLoop)
        else Run(Err(giveUp), 1, [], false)
  }

  /** The loop leaves by its condition only when it never runs: with
      `max_retries >= 0` every path returns or raises inside the loop, and the
      number of POSTs is bounded by the attempts left. */
  lemma {:induction false} DriveShape<T>(step: (Attempt, nat) -> Step<T>, maxRetries: int, oracle: nat -> Attempt,
                                         postLoop: Option<Attempt> -> Errors.Error, k: nat, last: Option<Attempt>)
    ensures Drive(step, maxRetries, oracle, postLoop, k, last).exitedLoop <==> k > maxRetries
    ensures k > maxRetries ==> Drive(step, maxRetries, oracle, postLoop, k, last).posts == 0
                               && Drive(step, maxRetries, oracle, postLoop, k, last).result == Err(postLoop(last))
    ensures k <= maxRetries ==> 1 <= Drive(step, maxRetries, oracle, postLoop, k, last).posts <= maxRetries - k + 1
    ensures k <= maxRetries ==> |Drive(step, maxRetries, oracle, postLoop, k, last).sleeps|
                                == Drive(step, maxRetries, oracle, postLoop, k, last).posts - 1
    decreases if k <= maxRetries then maxRetries - k + 1 else 0
  {
    if k <= maxRetries {
      match step(oracle(k), k)
      case Return(_) =>
      case Raise(_) =>
      case Retryable(now, _) =>
        if k < maxRetries && now.Ok? {
          DriveShape(step, maxRetries, oracle, postLoop, k + 1, Some(oracle(k)));
        }
    }
  }

  /** Every outcome from attempt k to the last one is retryable and sleeping
      succeeds. */
  predicate AllRetryable<T>(step: (Attempt, nat) -> Step<T>, maxRetries: int, oracle: nat -> Attempt, k: nat)
    decreases if k <= maxRetries then maxRetries - k + 1 else 0
  {
    k <= maxRetries ==>
      step(oracle(k), k).Retryable?
      && (k < maxRetries ==> step(oracle(k), k).retryNow.Ok?)
      && AllRetryable(step, maxRetries, oracle, k + 1)
  }

  /** The delay the step for attempt k asks to sleep (0 when it asks for none). */
  function DelayAt<T>(step: (Attempt, nat) -> Step<T>, oracle: nat -> Attempt, k: nat): real {
    var s := step(oracle(k), k);
    if s.Retryable? && s.retryNow.Ok? then s.retryNow.value else 0.0
  }

  /** Against a failure retried every time, the loop posts once per attempt,
      sleeps between posts with the delays the steps ask for, and raises the
      give-up error of the last attempt. */
  lemma {:induction false} AlwaysRetryable<T>(step: (Attempt, nat) -> Step<T>, maxRetries: int, oracle: nat -> Attempt,
                                              postLoop: Option<Attempt> -> Errors.Error, k: nat, last: Option<Attempt>)
    requires k <= maxRetries
    requires AllRetryable(step, maxRetries, oracle, k)
    ensures Drive(step, maxRetries, oracle, postLoop, k, last).posts == maxRetries - k + 1
    ensures |Drive(step, maxRetries, oracle, postLoop, k, last).sleeps| == maxRetries - k
    ensures step(oracle(maxRetries), maxRetries).Retryable?
            && Drive(step, maxRetries, oracle, postLoop, k, last).result == Err(step(oracle(maxRetries), maxRetries).giveUp)
    ensures forall j | 0 <= j < |Drive(step, maxRetries, oracle, postLoop, k, last).sleeps| ::
              Drive(step, maxRetries, oracle, postLoop, k, last).sleeps[j] == DelayAt(step, oracle, k + j)
    decreases maxRetries - k
  {
    if k < maxRetries {
      AlwaysRetryable(step, maxRetries, oracle, postLoop, k + 1, Some(oracle(k)));
      var rest := Drive(step, maxRetries, oracle, postLoop, k + 1, Some(oracle(k)));
      var r := Drive(step, maxRetries, oracle, postLoop, k, last);
      assert r.sleeps == [DelayAt(step, oracle, k)] + rest.sleeps;
      forall j | 0 <= j < |r.sleeps|
        ensures r.sleeps[j] == DelayAt(step, oracle, k + j)
      {
        if j > 0 {
          var i := j - 1;
          assert r.sleeps[j] == rest.sleeps[i];
          assert rest.sleeps[i] == DelayAt(step, oracle, k + 1 + i);
          assert k + 1 + i == k + j;
        }
      }
    }
  }

  /** When the steps from k to j-1 are retried with a successful sleep and
      the sleep of step j (not the last attempt) raises, the loop ends with
      that exception after the POSTs from k to j. */
  lemma {:induction false} SleepFailsAt<T>(step: (Attempt, nat) -> Step<T>, maxRetries: int, oracle: nat -> Attempt,
                                           postLoop: Option<Attempt> -> Errors.Error, k: nat, last: Option<Attempt>, j: nat)
    requires k <= j < maxRetries
    requires forall i :: k <= i < j ==> step(oracle(i), i).Retryable? && step(oracle(i), i).retryNow.Ok?
    requires step(oracle(j), j).Retryable? && step(oracle(j), j).retryNow.Err?
    ensures Drive(step, maxRetries, oracle, postLoop, k, last).result == Err(step(oracle(j), j).retryNow.error)
    ensures Drive(step, maxRetries, oracle, postLoop, k, last).posts == j - k + 1
    decreases j - k
  {
    if k < j {
      SleepFailsAt(step, maxRetries, oracle, postLoop, k + 1, Some(oracle(k)), j);
    }
  }

  /** Counters of a loop that has made `posts` POSTs and slept `sleeps`,
      prefixed to the run of the rest of the loop. */
  function After<T>(posts: nat, sleeps: seq<real>, rest: Run<T>): Run<T> {
    Run(rest.result, rest.posts + posts, sleeps + rest.sleeps, rest.exitedLoop)
  }

  /** One retried attempt: a POST and a sleep, then the rest of the loop. */
  lemma DriveRetried<T>(step: (Attempt, nat) -> Step<T>, maxRetries: int, oracle: nat -> Attempt,
                        postLoop: Option<Attempt> -> Errors.Error, k: nat, last: Option<Attempt>)
    requires k < maxRetries && step(oracle(k), k).Retryable? && step(oracle(k), k).retryNow.Ok?
    ensures Drive(step, maxRetries, oracle, postLoop, k, last)
            == After(1, [step(oracle(k), k).retryNow.value], Drive(step, maxRetries, oracle, postLoop, k + 1, Some(oracle(k))))
  {
  }

  lemma AfterAfter<T>(posts: nat, sleeps: seq<real>, x: real, rest: Run<T>)
    ensures After(posts, sleeps, After(1, [x], rest)) == After(posts + 1, sleeps + [x], rest)
  {
  }

  /** The loop as the Python code runs it, one iteration per POST. */
  method RetryLoop<T>(step: (Attempt, nat) -> Step<T>, maxRetries: int, oracle: nat -> Attempt,
                      postLoop: Option<Attempt> -> Errors.Error) returns (run: Run<T>)
    ensures run == Drive(step, maxRetries, oracle, postLoop, 0, None)
    ensures run.exitedLoop <==> maxRetries < 0
    ensures run.exitedLoop ==> run.posts == 0 && run.result == Err(postLoop(None))
    ensures !run.exitedLoop ==> 1 <= run.posts <= maxRetries + 1 && |run.sleeps| == run.posts - 1
  {
    DriveShape(step, maxRetries, oracle, postLoop, 0, None);
    var attempts: nat := 0;
    var last: Option<Attempt> := None;
    var sleeps: seq<real> := [];
    while attempts <= maxRetries
      invariant attempts == |sleeps|
      invariant attempts > 0 ==> attempts <= maxRetries
      invariant attempts == 0 ==> last.None?
      invariant After(attempts, sleeps, Drive(step, maxRetries, oracle, postLoop, attempts, last))
                == Drive(step, maxRetries, oracle, postLoop, 0, None)
      decreases maxRetries - attempts
    {
      var outcome := oracle(attempts);
      match step(outcome, attempts)
      case Return(v) =>
        return Run(Ok(v), attempts + 1, sleeps, false);
      case Raise(e) =>
        return Run(Err(e), attempts + 1, sleeps, false);
      case Retryable(now, giveUp) =>
        if attempts < maxRetries {
          if now.Err? {
            return Run(Err(now.error), attempts + 1, sleeps, false);
          }
          DriveRetried(step, maxRetries, oracle, postLoop, attempts, last);
          AfterAfter(attempts, sleeps, now.value, Drive(step, maxRetries, oracle, postLoop, attempts + 1, Some(outcome)));
          sleeps := sleeps + [now.value];
          last := Some(outcome);
          attempts := attempts + 1;
        } else {
          return Run(Err(giveUp), attempts + 1, sleeps, false);
        }
    }
    run := Run(Err(postLoop(last)), attempts, sleeps, true);
  }
}
