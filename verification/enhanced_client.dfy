/** `EnhancedApiClient` of enhanced_api_client.py: `send_data` with its
    retry loop over `requests.post`, and `batch_send`. */
module EnhancedClient {
  import opened Wrappers
  import opened Json
  import Text
  import Errors
  import Validators
  import Options
  import Retry
  import HttpErrors

  /** The constructor's settings; `timeout` is the text `str(self.timeout)`
      shows, as it only appears in messages. */
  datatype Client = Client(maxRetries: int, retryDelay: real, timeout: string,
                           retryStatusCodes: seq<int>, silent: bool)

  /** `EnhancedApiClient(api_token, ...)` with the constructor's defaults. */
  function NewClient(maxRetries: int := 3, retryDelay: real := 1.0, timeout: string := "30.0",
                     retryStatusCodes: Option<seq<int>> := None, silent: bool := false): (c: Client)
    ensures c.maxRetries == maxRetries && c.retryDelay == retryDelay && c.silent == silent
    ensures c.retryStatusCodes == Retry.RetryStatusCodes(retryStatusCodes)
  {
    Client(maxRetries, retryDelay, timeout, Retry.RetryStatusCodes(retryStatusCodes), silent)
  }

  /** The range of delays `time.sleep` converts to nanoseconds without
      overflow: `_PyTime_t` is a signed 64-bit integer, so the delay times
      10**9 must lie within -2**63 .. 2**63 - 1. The sign is checked only
      after the conversion. */
  predicate SleepInRange(d: real) {
    -9223372036.854775808 <= d <= 9223372036.854775807
  }

  const SleepOverflow := Errors.Foreign("OverflowError", "timestamp too large to convert to C _PyTime_t")
  const NegativeSleep := Errors.Foreign("ValueError", "sleep length must be non-negative")

  /** `time.sleep(d)`: a delay whose nanoseconds do not fit in 64 bits raises
      OverflowError, a negative one ValueError. */
  function Sleep(d: real): (r: Result<real, Errors.Error>)
    ensures r.Ok? <==> 0.0 <= d && SleepInRange(d)
    ensures r.Ok? ==> r.value == d
    ensures r == Err(SleepOverflow) <==> !SleepInRange(d)
    ensures r == Err(NegativeSleep) <==> SleepInRange(d) && d < 0.0
  {
    if !SleepInRange(d) then Err(SleepOverflow)
    else if d < 0.0 then Err(NegativeSleep)
    else Ok(d)
  }

  /** The sleep before retrying an HTTP error at attempt k. For a 429 with
      an integer Retry-After the header's value is slept; only the
      ValueError of a negative value is caught, and the backoff is slept
      instead. Otherwise the backoff. */
  function HttpRetryDelay(c: Client, response: Retry.HttpResponse, k: nat): (r: Result<real, Errors.Error>)
    ensures r.Ok? ==> r.value >= 0.0
    ensures var header := if response.status == 429 && response.retryAfter.Some?
                          then Text.ParseInt(response.retryAfter.value) else None;
            && (header.Some? && 0 <= header.value && SleepInRange(header.value as real) ==> r == Ok(header.value as real))
            && (header.Some? && !SleepInRange(header.value as real) ==> r == Err(SleepOverflow))
            && (header.Some? && header.value < 0 && SleepInRange(header.value as real)
                ==> r == Sleep(Retry.Backoff(c.retryDelay, k)))
            && (header.None? ==> r == Sleep(Retry.Backoff(c.retryDelay, k)))
  {
    if response.status == 429 && response.retryAfter.Some? then
      match Text.ParseInt(response.retryAfter.value)
      case Some(d) =>
        (match Sleep(d as real)
         case Ok(v) => Ok(v)
         case Err(e) => if e == NegativeSleep then Sleep(Retry.Backoff(c.retryDelay, k)) else Err(e))
      case None => Sleep(Retry.Backoff(c.retryDelay, k))
    else Sleep(Retry.Backoff(c.retryDelay, k))
  }

  /** A 429 whose Retry-After is a delay-seconds value too large for
      `time.sleep` (more than 9223372036 seconds) raises OverflowError
      instead of waiting. */
  lemma HugeRetryAfterOverflows(c: Client, response: Retry.HttpResponse, k: nat)
    requires response.status == 429 && response.retryAfter.Some?
    requires Text.IsDelaySeconds(response.retryAfter.value)
    requires Text.DigitsValue(response.retryAfter.value) > 9223372036
    ensures HttpRetryDelay(c, response, k) == Err(SleepOverflow)
  {
    Text.DelaySecondsParse(response.retryAfter.value);
  }

  /** `ApiError(f"Unexpected error: {e}")` */
  function Unexpected(text: string): Errors.Error {
    Errors.NewApiError(Errors.Plain, "Unexpected error: " + text)
  }

  /** The `except requests.exceptions.HTTPError` branch. */
  function HttpErrorStep(c: Client, retry: bool, response: Retry.HttpResponse, k: nat): (s: Retry.Step<Json>)
    ensures s.Retryable? <==> retry && response.status in c.retryStatusCodes
    ensures !s.Return?
    ensures s.Retryable? ==> s.giveUp == HttpErrors.HandleHttpError(response, response.errorText)
                             && s.retryNow == HttpRetryDelay(c, response, k)
    ensures s.Raise? ==> s.error == HttpErrors.HandleHttpError(response, response.errorText)
  {
    var final := HttpErrors.HandleHttpError(response, response.errorText);
    if retry && response.status in c.retryStatusCodes then Retry.Retryable(HttpRetryDelay(c, response, k), final)
    else Retry.Raise(final)
  }

  /** A response `raise_for_status` lets through: its JSON, `{}` when it does
      not parse, or the exception the log line raises on an odd body. */
  function SuccessStep(c: Client, response: Retry.HttpResponse): (s: Retry.Step<Json>)
    ensures !s.Retryable?
    ensures response.json.Err? ==> s == Retry.Return(JObj(map[]))
    ensures response.json.Ok? && (c.silent || (response.json.value.JObj? && "summary" !in response.json.value.fields))
            ==> s == Retry.Return(response.json.value)
    ensures s.Raise? ==> s.error.ApiError? && s.error.statusCode.None?
  {
    match response.json
    case Err(_) => Retry.Return(JObj(map[]))
    case Ok(body) =>
      if c.silent then Retry.Return(body)
      else
        match HttpErrors.LogSummary(body)
        case Err(p) => Retry.Raise(Unexpected(p.message))
        case Ok(_) => Retry.Return(body)
  }

  /** One iteration of the loop body for the outcome of POST number k. */
  function AttemptStep(c: Client, retry: bool, attempt: Retry.Attempt, k: nat): (s: Retry.Step<Json>)
    ensures attempt.TimedOut? ==>
              (s.Retryable? <==> retry)
              && (s.Retryable? ==> s.retryNow == Sleep(Retry.Backoff(c.retryDelay, k)))
              && (s.Retryable? ==> s.giveUp == TimeoutError(c))
              && (s.Raise? ==> s.error == TimeoutError(c))
    ensures attempt.ConnectFailed? ==>
              (s.Retryable? <==> retry)
              && (s.Retryable? ==> s.retryNow == Sleep(Retry.Backoff(c.retryDelay, k)))
              && (s.Retryable? ==> s.giveUp == Errors.NewApiError(Errors.Connection, "Connection failed: " + attempt.text))
              && (s.Raise? ==> s.error == Errors.NewApiError(Errors.Connection, "Connection failed: " + attempt.text))
              && (!s.Return?)
    ensures attempt.StatusRaised? || (attempt.Replied? && 400 <= attempt.response.status < 600) ==>
              (s.Retryable? <==> retry && attempt.response.status in c.retryStatusCodes)
              && (s.Retryable? ==> s.retryNow == HttpRetryDelay(c, attempt.response, k))
              && (s.Retryable? ==> s.giveUp == HttpErrors.HandleHttpError(attempt.response, attempt.response.errorText))
              && (s.Raise? ==> s.error == HttpErrors.HandleHttpError(attempt.response, attempt.response.errorText))
              && !s.Return?
    ensures attempt.Replied? && !(400 <= attempt.response.status < 600) ==> s == SuccessStep(c, attempt.response)
    ensures attempt.Crashed? ==> s == Retry.Raise(Unexpected(attempt.text))
  {
    match attempt
    case Replied(response) =>
      if 400 <= response.status < 600 then HttpErrorStep(c, retry, response, k)
      else SuccessStep(c, response)
    case StatusRaised(response) => HttpErrorStep(c, retry, response, k)
    case TimedOut(_) =>
      if retry then Retry.Retryable(Sleep(Retry.Backoff(c.retryDelay, k)), TimeoutError(c))
      else Retry.Raise(TimeoutError(c))
    case ConnectFailed(text) =>
      var e := Errors.NewApiError(Errors.Connection, "Connection failed: " + text);
      if retry then Retry.Retryable(Sleep(Retry.Backoff(c.retryDelay, k)), e) else Retry.Raise(e)
    case Crashed(_, text) => Retry.Raise(Unexpected(text))
  }

  function TimeoutError(c: Client): Errors.Error {
    Errors.NewApiError(Errors.Timeout, "Request timed out after " + c.timeout + " seconds")
  }

  /** The code after the loop, which re-raises `last_error`. */
  function PostLoop(c: Client, last: Option<Retry.Attempt>): Errors.Error {
    var n := Text.IntToString(c.maxRetries);
    match last
    case None => Errors.NewApiError(Errors.Plain, "Failed after " + n + " retries: Unknown error")
    case Some(Replied(response)) => HttpErrors.HandleHttpError(response, response.errorText)
    case Some(StatusRaised(response)) => HttpErrors.HandleHttpError(response, response.errorText)
    case Some(TimedOut(_)) => Errors.NewApiError(Errors.Timeout, "Request timed out after " + n + " retries")
    case Some(ConnectFailed(text)) =>
      Errors.NewApiError(Errors.Connection, "Connection failed after " + n + " retries: " + text)
    case Some(Crashed(_, text)) => Errors.NewApiError(Errors.Plain, "Failed after " + n + " retries: " + text)
  }

  /** What happens before the first POST: validation, the option merge and
      the log line reading `payload["options"].get("debug")`. */
  function Prepare(c: Client, payload: map<string, Json>, debug: bool): (r: Result<map<string, Json>, Errors.Error>)
    ensures Validators.ValidatePayload(payload).Some? ==>
              r == Err(Errors.NewPayloadValidationError("Payload validation failed: " + Validators.ValidatePayload(payload).value))
    ensures r.Ok? ==> Validators.ValidPayload(payload) && Options.AddDefaultOptions(payload, debug) == Ok(r.value)
    ensures r.Err? && Validators.ValidPayload(payload) ==> r.error.Foreign?
  {
    match Validators.ValidatePayload(payload)
    case Some(message) => Err(Errors.NewPayloadValidationError("Payload validation failed: " + message))
    case None =>
      match Options.AddDefaultOptions(payload, debug)
      case Err(p) => Err(Errors.FromPy(p))
      case Ok(merged) =>
        if !c.silent && !merged["options"].JObj? then
          Err(Errors.Foreign("AttributeError", "'" + TypeName(merged["options"]) + "' object has no attribute 'get'"))
        else Ok(merged)
  }

  /** `send_data(payload, debug, retry)` against the network `oracle`. */
  function SendData(c: Client, payload: map<string, Json>, debug: bool, retry: bool,
                    oracle: nat -> Retry.Attempt): (r: Retry.Run<Json>)
    ensures Prepare(c, payload, debug).Err? ==> r.posts == 0 && r.result == Err(Prepare(c, payload, debug).error)
    ensures Prepare(c, payload, debug).Ok? ==>
              r == Retry.Drive((a, k) => AttemptStep(c, retry, a, k), c.maxRetries, oracle,
                               last => PostLoop(c, last), 0, None)
  {
    match Prepare(c, payload, debug)
    case Err(e) => Retry.Run(Err(e), 0, [], false)
    case Ok(_) =>
      Retry.Drive((a, k) => AttemptStep(c, retry, a, k), c.maxRetries, oracle, last => PostLoop(c, last), 0, None)
  }

  /** An invalid payload raises PayloadValidationError before any POST. */
  lemma InvalidPayloadNotSent(c: Client, payload: map<string, Json>, debug: bool, retry: bool,
                              oracle: nat -> Retry.Attempt)
    requires !Validators.ValidPayload(payload)
    ensures SendData(c, payload, debug, retry, oracle).posts == 0
    ensures SendData(c, payload, debug, retry, oracle).result.Err?
    ensures SendData(c, payload, debug, retry, oracle).result.error.PayloadValidationError?
  {
  }

  /** With `max_retries >= 0` control never reaches the code after the loop;
      there are at most max_retries+1 POSTs and one sleep between each two.
      With a negative `max_retries` nothing is sent and the post-loop code
      raises "Failed after N retries: Unknown error". */
  lemma SendDataShape(c: Client, payload: map<string, Json>, debug: bool, retry: bool, oracle: nat -> Retry.Attempt)
    requires Prepare(c, payload, debug).Ok?
    ensures var r := SendData(c, payload, debug, retry, oracle);
            && (r.exitedLoop <==> c.maxRetries < 0)
            && (c.maxRetries >= 0 ==> 1 <= r.posts <= c.maxRetries + 1 && |r.sleeps| == r.posts - 1)
            && (c.maxRetries < 0 ==> r.posts == 0 && r.result == Err(PostLoop(c, None)))
  {
    Retry.DriveShape((a, k) => AttemptStep(c, retry, a, k), c.maxRetries, oracle, last => PostLoop(c, last), 0, None);
  }

  /** `time.sleep` accepts every backoff delay slept between two attempts. */
  predicate BackoffsSleep(c: Client) {
    forall j :: 0 <= j < c.maxRetries ==> Sleep(Retry.Backoff(c.retryDelay, j)).Ok?
  }

  /** With retry on, a timeout is retried after the backoff, giving up with
      ApiTimeoutError. */
  lemma TimedOutStep(c: Client, a: Retry.Attempt, k: nat)
    requires a.TimedOut?
    ensures AttemptStep(c, true, a, k) == Retry.Retryable(Sleep(Retry.Backoff(c.retryDelay, k)), TimeoutError(c))
  {
  }

  /** Timeouts on every attempt (with retry on and backoffs the sleep
      accepts) are retried from attempt k to the last one. */
  lemma {:induction false} TimeoutsRetryable(c: Client, oracle: nat -> Retry.Attempt, k: nat)
    requires BackoffsSleep(c)
    requires forall j :: oracle(j).TimedOut?
    ensures Retry.AllRetryable((a, j) => AttemptStep(c, true, a, j), c.maxRetries, oracle, k)
    decreases if k <= c.maxRetries then c.maxRetries - k + 1 else 0
  {
    if k <= c.maxRetries {
      TimedOutStep(c, oracle(k), k);
      TimeoutsRetryable(c, oracle, k + 1);
    }
  }

  /** The loop alone against a server that always times out. */
  lemma TimeoutRun(c: Client, oracle: nat -> Retry.Attempt)
    requires c.maxRetries >= 0 && BackoffsSleep(c)
    requires forall j :: oracle(j).TimedOut?
    ensures var r := Retry.Drive((a, k) => AttemptStep(c, true, a, k), c.maxRetries, oracle,
                                 last => PostLoop(c, last), 0, None);
            && r.posts == c.maxRetries + 1
            && |r.sleeps| == c.maxRetries
            && (forall j | 0 <= j < |r.sleeps| :: r.sleeps[j] == Retry.Backoff(c.retryDelay, j))
            && r.result == Err(TimeoutError(c))
  {
    var step := (a: Retry.Attempt, k: nat) => AttemptStep(c, true, a, k);
    var postLoop := last => PostLoop(c, last);
    TimeoutsRetryable(c, oracle, 0);
    Retry.AlwaysRetryable(step, c.maxRetries, oracle, postLoop, 0, None);
    var r := Retry.Drive(step, c.maxRetries, oracle, postLoop, 0, None);
    forall j | 0 <= j < |r.sleeps|
      ensures r.sleeps[j] == Retry.Backoff(c.retryDelay, j)
    {
      assert r.sleeps[j] == Retry.DelayAt(step, oracle, j);
      TimedOutStep(c, oracle(j), j);
    }
    TimedOutStep(c, oracle(c.maxRetries), c.maxRetries);
  }

  /** Against a server that always times out, `max_retries = N` gives N+1
      POSTs and N sleeps of `retry_delay * 2**k`, then ApiTimeoutError,
      when `time.sleep` accepts each of those delays
      (`TimeoutBackoffFails` is the other case). */
  lemma AlwaysTimingOut(c: Client, payload: map<string, Json>, debug: bool, oracle: nat -> Retry.Attempt)
    requires Prepare(c, payload, debug).Ok?
    requires c.maxRetries >= 0 && BackoffsSleep(c)
    requires forall j :: oracle(j).TimedOut?
    ensures var r := SendData(c, payload, debug, true, oracle);
            && r.posts == c.maxRetries + 1
            && |r.sleeps| == c.maxRetries
            && (forall j | 0 <= j < |r.sleeps| :: r.sleeps[j] == Retry.Backoff(c.retryDelay, j))
            && r.result == Err(TimeoutError(c))
  {
    TimeoutRun(c, oracle);
  }

  /** Against a server that always times out, the first backoff `time.sleep`
      rejects (a negative one, or one too large) ends the call after j+1
      POSTs with that sleep's exception, which is not an ApiError. */
  lemma TimeoutBackoffFails(c: Client, payload: map<string, Json>, debug: bool, oracle: nat -> Retry.Attempt, j: nat)
    requires Prepare(c, payload, debug).Ok?
    requires forall i :: oracle(i).TimedOut?
    requires j < c.maxRetries
    requires forall i :: 0 <= i < j ==> Sleep(Retry.Backoff(c.retryDelay, i)).Ok?
    requires Sleep(Retry.Backoff(c.retryDelay, j)).Err?
    ensures var r := SendData(c, payload, debug, true, oracle);
            && r.posts == j + 1
            && r.result == Err(Sleep(Retry.Backoff(c.retryDelay, j)).error)
            && !Errors.IsApiError(r.result.error)
  {
    TimeoutFailRun(c, oracle, j);
  }

  /** The loop alone when the sleep after timeout j raises. */
  lemma TimeoutFailRun(c: Client, oracle: nat -> Retry.Attempt, j: nat)
    requires forall i :: oracle(i).TimedOut?
    requires j < c.maxRetries
    requires forall i :: 0 <= i < j ==> Sleep(Retry.Backoff(c.retryDelay, i)).Ok?
    requires Sleep(Retry.Backoff(c.retryDelay, j)).Err?
    ensures var r := Retry.Drive((a, k) => AttemptStep(c, true, a, k), c.maxRetries, oracle,
                                 last => PostLoop(c, last), 0, None);
            && r.posts == j + 1
            && r.result == Err(Sleep(Retry.Backoff(c.retryDelay, j)).error)
  {
    var step := (a: Retry.Attempt, k: nat) => AttemptStep(c, true, a, k);
    var postLoop := last => PostLoop(c, last);
    forall i | 0 <= i < j
      ensures step(oracle(i), i).Retryable? && step(oracle(i), i).retryNow.Ok?
    {
      TimedOutStep(c, oracle(i), i);
    }
    TimedOutStep(c, oracle(j), j);
    Retry.SleepFailsAt(step, c.maxRetries, oracle, postLoop, 0, None, j);
  }

  /** A 2xx answer whose body is not JSON yields `{}` after one POST. */
  lemma UnparseableBodyGivesEmpty(c: Client, payload: map<string, Json>, debug: bool, retry: bool,
                                  oracle: nat -> Retry.Attempt)
    requires Prepare(c, payload, debug).Ok? && c.maxRetries >= 0
    requires oracle(0).Replied? && 200 <= oracle(0).response.status < 300 && oracle(0).response.json.Err?
    ensures SendData(c, payload, debug, retry, oracle).result == Ok(JObj(map[]))
    ensures SendData(c, payload, debug, retry, oracle).posts == 1
  {
  }

  // ---------------------------------------------------------------- batch_send

  /** The result entry recorded for a failed payload under continue_on_error. */
  function ErrorRecord(e: Errors.Error, i: nat): Json
    requires Errors.IsApiError(e)
  {
    JObj(map["error" := JStr(Errors.Str(e)),
             "status_code" := (if e.statusCode.Some? then JInt(e.statusCode.value) else JNull),
             "payload_index" := JInt(i)])
  }

  /** Whether `batch_send` carries on past payload i's outcome. */
  predicate Tolerated(outcome: Result<Json, Errors.Error>, continueOnError: bool) {
    outcome.Ok? || (continueOnError && Errors.IsApiError(outcome.error))
  }

  /** `batch_send` from payload i on, given what `send_data` does for each
      payload; `sent` counts the payloads handed to `send_data`. */
  datatype Batch = Batch(result: Result<seq<Json>, Errors.Error>, sent: nat)

  function BatchFrom(outcomes: seq<Result<Json, Errors.Error>>, continueOnError: bool, i: nat): (b: Batch)
    requires i <= |outcomes|
    decreases |outcomes| - i
  {
    if i == |outcomes| then Batch(Ok([]), 0)
    else
      var outcome := outcomes[i];
      if !Tolerated(outcome, continueOnError) then Batch(Err(outcome.error), 1)
      else
        var head := if outcome.Ok? then outcome.value else ErrorRecord(outcome.error, i);
        var rest := BatchFrom(outcomes, continueOnError, i + 1);
        Batch(if rest.result.Ok? then Ok([head] + rest.result.value) else rest.result, rest.sent + 1)
  }

  /** The whole batch succeeds exactly when every outcome is tolerated; the
      results then line up with the payloads, a failure replaced by its
      record carrying the payload's index. */
  lemma {:induction false} BatchFromOk(outcomes: seq<Result<Json, Errors.Error>>, continueOnError: bool, i: nat)
    requires i <= |outcomes|
    ensures BatchFrom(outcomes, continueOnError, i).result.Ok? <==>
              forall j | i <= j < |outcomes| :: Tolerated(outcomes[j], continueOnError)
    ensures BatchFrom(outcomes, continueOnError, i).result.Ok? ==>
              && BatchFrom(outcomes, continueOnError, i).sent == |outcomes| - i
              && |BatchFrom(outcomes, continueOnError, i).result.value| == |outcomes| - i
              && forall j | i <= j < |outcomes| ::
                   BatchFrom(outcomes, continueOnError, i).result.value[j - i]
                   == (if outcomes[j].Ok? then outcomes[j].value else ErrorRecord(outcomes[j].error, j))
    decreases |outcomes| - i
  {
    if i < |outcomes| {
      BatchFromOk(outcomes, continueOnError, i + 1);
      var b := BatchFrom(outcomes, continueOnError, i);
      var rest := BatchFrom(outcomes, continueOnError, i + 1);
      if b.result.Ok? {
        forall j | i <= j < |outcomes|
          ensures b.result.value[j - i]
                  == (if outcomes[j].Ok? then outcomes[j].value else ErrorRecord(outcomes[j].error, j))
        {
          if j > i {
            assert b.result.value[j - i] == rest.result.value[j - (i + 1)];
          }
        }
      }
    }
  }

  /** A failing batch stops at the first payload whose outcome is not
      tolerated and raises that payload's exception; nothing after it is
      sent. */
  lemma {:induction false} BatchFromErr(outcomes: seq<Result<Json, Errors.Error>>, continueOnError: bool, i: nat)
    requires i <= |outcomes|
    requires BatchFrom(outcomes, continueOnError, i).result.Err?
    ensures var b := BatchFrom(outcomes, continueOnError, i);
            var f := i + b.sent - 1;
            && i <= f < |outcomes|
            && !Tolerated(outcomes[f], continueOnError)
            && b.result.error == outcomes[f].error
            && (forall j | i <= j < f :: Tolerated(outcomes[j], continueOnError))
    decreases |outcomes| - i
  {
    if Tolerated(outcomes[i], continueOnError) {
      BatchFromErr(outcomes, continueOnError, i + 1);
    }
  }

  /** `batch_send(payloads, debug, continue_on_error)`, each payload sent
      with `retry` on against its own network oracle. */
  function BatchSend(c: Client, payloads: seq<map<string, Json>>, debug: bool, continueOnError: bool,
                     oracles: nat -> (nat -> Retry.Attempt)): Batch
  {
    BatchFrom(Outcomes(c, payloads, debug, oracles), continueOnError, 0)
  }

  function Outcomes(c: Client, payloads: seq<map<string, Json>>, debug: bool,
                    oracles: nat -> (nat -> Retry.Attempt)): (r: seq<Result<Json, Errors.Error>>)
    ensures |r| == |payloads|
    ensures forall i | 0 <= i < |payloads| :: r[i] == SendData(c, payloads[i], debug, true, oracles(i)).result
  {
    seq(|payloads|, i requires 0 <= i < |payloads| => SendData(c, payloads[i], debug, true, oracles(i)).result)
  }

  /** A PayloadValidationError is not an ApiError, so an invalid payload
      stops the batch even under continue_on_error. */
  lemma InvalidPayloadStopsBatch(c: Client, payloads: seq<map<string, Json>>, debug: bool,
                                 oracles: nat -> (nat -> Retry.Attempt), i: nat)
    requires i < |payloads| && !Validators.ValidPayload(payloads[i])
    ensures BatchSend(c, payloads, debug, true, oracles).result.Err?
  {
    var outcomes := Outcomes(c, payloads, debug, oracles);
    InvalidPayloadNotSent(c, payloads[i], debug, true, oracles(i));
    assert !Tolerated(outcomes[i], true);
    BatchFromOk(outcomes, true, 0);
  }
}
