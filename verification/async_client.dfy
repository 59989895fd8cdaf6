/** `AsyncApiClient` of async_api_client.py: `send_data` with its retry
    loop over `aiohttp`, `batch_send` over `asyncio.gather`, and
    `split_and_send`. Concurrency is left out: the coroutines `gather`
    runs are modelled one after the other, in list order. */
module AsyncClient {
  import opened Wrappers
  import opened Json
  import Errors
  import Text
  import Validators
  import Options
  import Retry
  import HttpErrors
  import Batching
  import Aggregate

  /** The constructor's settings; `timeout` is the text `str(self.timeout)`
      shows. */
  datatype Client = Client(maxRetries: int, retryDelay: real, timeout: string, retryStatusCodes: seq<int>)

  /** `AsyncApiClient(api_token, ...)` with the constructor's defaults. */
  function NewClient(maxRetries: int := 3, retryDelay: real := 1.0, timeout: string := "30.0",
                     retryStatusCodes: Option<seq<int>> := None): (c: Client)
    ensures c.maxRetries == maxRetries && c.retryDelay == retryDelay
    ensures c.retryStatusCodes == Retry.RetryStatusCodes(retryStatusCodes)
  {
    Client(maxRetries, retryDelay, timeout, Retry.RetryStatusCodes(retryStatusCodes))
  }

  /** `ApiError(f"Unexpected error: {e}")` */
  function Unexpected(text: string): Errors.Error {
    Errors.NewApiError(Errors.Plain, "Unexpected error: " + text)
  }

  /** The typed error for a `ClientResponseError`: its `str(e)` as the
      message and its status, with no response data and no retry_after. */
  function StatusError(response: Retry.HttpResponse): (e: Errors.Error)
    ensures Errors.IsApiError(e) && e.statusCode == Some(response.status) && e.message == response.errorText
    ensures e.responseData == map[]
    ensures e.ApiAuthenticationError? <==> response.status == 401
    ensures e.ApiAccessDeniedError? <==> response.status == 403
    ensures e.ApiRateLimitError? <==> response.status == 429
    ensures e.ApiRateLimitError? ==> e.retryAfter.None?
    ensures e.ApiServerError? <==> 500 <= response.status < 600
  {
    Errors.NewApiError(HttpErrors.StatusKind(response.status), response.errorText, Some(response.status))
  }

  /** The sleep before retrying a `ClientResponseError` at attempt k: an
      integer Retry-After of a 429 as it is (`asyncio.sleep` accepts any
      number), else the backoff. */
  function StatusRetryDelay(c: Client, response: Retry.HttpResponse, k: nat): real {
    if response.status == 429 && response.retryAfter.Some? && Text.ParseInt(response.retryAfter.value).Some?
    then Text.ParseInt(response.retryAfter.value).value as real
    else Retry.Backoff(c.retryDelay, k)
  }

  function TimeoutError(c: Client): Errors.Error {
    Errors.NewApiError(Errors.Timeout, "Request timed out after " + c.timeout + " seconds")
  }

  /** A response below 400: its JSON, `{}` when it does not parse, or the
      exception the log line raises on an odd body. */
  function SuccessStep(response: Retry.HttpResponse): (s: Retry.Step<Json>)
    ensures !s.Retryable?
    ensures response.json.Err? ==> s == Retry.Return(JObj(map[]))
    ensures response.json.Ok? && response.json.value.JObj? ==>
              (s.Return? <==> "summary" !in response.json.value.fields || response.json.value.fields["summary"].JObj?)
    ensures s.Return? && response.json.Ok? ==> s.value == response.json.value
  {
    match response.json
    case Err(_) => Retry.Return(JObj(map[]))
    case Ok(body) =>
      match HttpErrors.LogSummary(body)
      case Err(p) => Retry.Raise(Unexpected(p.message))
      case Ok(_) => Retry.Return(body)
  }

  /** One iteration of the loop body for the outcome of POST number k. */
  function AttemptStep(c: Client, retry: bool, attempt: Retry.Attempt, k: nat): (s: Retry.Step<Json>)
    ensures s.Retryable? ==> s.retryNow.Ok?
    ensures attempt.StatusRaised? ==>
              (s.Retryable? <==> retry && attempt.response.status in c.retryStatusCodes)
              && (s.Retryable? ==> s.retryNow == Ok(StatusRetryDelay(c, attempt.response, k))
                                   && s.giveUp == StatusError(attempt.response))
              && (s.Raise? ==> s.error == StatusError(attempt.response))
    ensures attempt.Replied? && attempt.response.status >= 400 ==>
              s == Retry.Raise(Unexpected(Errors.Str(HttpErrors.HandleHttpError(attempt.response, attempt.response.text))))
    ensures attempt.TimedOut? || attempt.ConnectFailed? ==>
              (s.Retryable? <==> retry)
              && (s.Retryable? ==> s.retryNow == Ok(Retry.Backoff(c.retryDelay, k)))
              && !s.Return?
    ensures attempt.TimedOut? && s.Retryable? ==> s.giveUp == TimeoutError(c)
    ensures attempt.TimedOut? && s.Raise? ==> s.error == TimeoutError(c)
    ensures attempt.ConnectFailed? && s.Retryable? ==>
              s.giveUp == Errors.NewApiError(Errors.Connection, "Connection failed: " + attempt.text)
    ensures attempt.ConnectFailed? && s.Raise? ==>
              s.error == Errors.NewApiError(Errors.Connection, "Connection failed: " + attempt.text)
    ensures attempt.Crashed? ==> s == Retry.Raise(Unexpected(attempt.text))
  {
    match attempt
    case Replied(response) =>
      if response.status >= 400 then
        // the typed error raised inside the `try` is caught by its last clause
        Retry.Raise(Unexpected(Errors.Str(HttpErrors.HandleHttpError(response, response.text))))
      else
        SuccessStep(response)
    case StatusRaised(response) =>
      if retry && response.status in c.retryStatusCodes then
        Retry.Retryable(Ok(StatusRetryDelay(c, response, k)), StatusError(response))
      else Retry.Raise(StatusError(response))
    case TimedOut(_) =>
      if retry then Retry.Retryable(Ok(Retry.Backoff(c.retryDelay, k)), TimeoutError(c))
      else Retry.Raise(TimeoutError(c))
    case ConnectFailed(text) =>
      var e := Errors.NewApiError(Errors.Connection, "Connection failed: " + text);
      if retry then Retry.Retryable(Ok(Retry.Backoff(c.retryDelay, k)), e) else Retry.Raise(e)
    case Crashed(_, text) => Retry.Raise(Unexpected(text))
  }

  /** The code after the loop, which re-raises `last_error`. */
  function PostLoop(c: Client, last: Option<Retry.Attempt>): Errors.Error {
    var n := Text.IntToString(c.maxRetries);
    match last
    case None => Errors.NewApiError(Errors.Plain, "Failed after " + n + " retries: Unknown error")
    case Some(Replied(response)) => StatusError(response)
    case Some(StatusRaised(response)) => StatusError(response)
    case Some(TimedOut(_)) => Errors.NewApiError(Errors.Timeout, "Request timed out after " + n + " retries")
    case Some(ConnectFailed(text)) =>
      Errors.NewApiError(Errors.Connection, "Connection failed after " + n + " retries: " + text)
    case Some(Crashed(_, text)) => Errors.NewApiError(Errors.Plain, "Failed after " + n + " retries: " + text)
  }

  /** Validation, the option merge and the log line reading
      `payload_dict.get("options", {}).get("debug")`, before any POST. */
  function Prepare(payload: map<string, Json>, debug: bool): (r: Result<map<string, Json>, Errors.Error>)
    ensures Validators.ValidatePayload(payload).Some? ==>
              r == Err(Errors.NewPayloadValidationError("Payload validation failed: " + Validators.ValidatePayload(payload).value))
    ensures r.Ok? <==> Validators.ValidPayload(payload) && Options.AddDefaultOptions(payload, debug).Ok?
                       && Options.AddDefaultOptions(payload, debug).value["options"].JObj?
    ensures r.Ok? ==> r.value == Options.AddDefaultOptions(payload, debug).value
  {
    match Validators.ValidatePayload(payload)
    case Some(message) => Err(Errors.NewPayloadValidationError("Payload validation failed: " + message))
    case None =>
      match Options.AddDefaultOptions(payload, debug)
      case Err(p) => Err(Errors.FromPy(p))
      case Ok(merged) =>
        if !merged["options"].JObj? then
          Err(Errors.Foreign("AttributeError", "'" + TypeName(merged["options"]) + "' object has no attribute 'get'"))
        else Ok(merged)
  }

  /** `await send_data(payload, debug, retry)` against the network `oracle`. */
  function SendData(c: Client, payload: map<string, Json>, debug: bool, retry: bool,
                    oracle: nat -> Retry.Attempt): (r: Retry.Run<Json>)
    ensures Prepare(payload, debug).Err? ==> r.posts == 0 && r.result == Err(Prepare(payload, debug).error)
    ensures Prepare(payload, debug).Ok? ==>
              r == Retry.Drive((a, k) => AttemptStep(c, retry, a, k), c.maxRetries, oracle,
                               last => PostLoop(c, last), 0, None)
  {
    match Prepare(payload, debug)
    case Err(e) => Retry.Run(Err(e), 0, [], false)
    case Ok(_) =>
      Retry.Drive((a, k) => AttemptStep(c, retry, a, k), c.maxRetries, oracle, last => PostLoop(c, last), 0, None)
  }

  /** A response with an error status is never retried: one POST, and the
      typed error it raises ends as a plain "Unexpected error" ApiError
      with no status. */
  lemma ErrorStatusNotRetried(c: Client, payload: map<string, Json>, debug: bool, retry: bool,
                              oracle: nat -> Retry.Attempt)
    requires Prepare(payload, debug).Ok? && c.maxRetries >= 0
    requires oracle(0).Replied? && oracle(0).response.status >= 400
    ensures var r := SendData(c, payload, debug, retry, oracle);
            && r.posts == 1 && r.result.Err?
            && r.result.error.ApiError? && r.result.error.statusCode.None?
            && r.result.error.message
               == "Unexpected error: " + Errors.Str(HttpErrors.HandleHttpError(oracle(0).response, oracle(0).response.text))
  {
  }

  /** With `max_retries >= 0` control never reaches the code after the loop,
      so its "after N retries" messages cannot be raised. */
  lemma PostLoopUnreachable(c: Client, payload: map<string, Json>, debug: bool, retry: bool,
                            oracle: nat -> Retry.Attempt)
    requires Prepare(payload, debug).Ok?
    ensures var r := SendData(c, payload, debug, retry, oracle);
            && (r.exitedLoop <==> c.maxRetries < 0)
            && (c.maxRetries >= 0 ==> 1 <= r.posts <= c.maxRetries + 1 && |r.sleeps| == r.posts - 1)
            && (c.maxRetries < 0 ==> r.posts == 0 && r.result == Err(PostLoop(c, None)))
  {
    Retry.DriveShape((a, k) => AttemptStep(c, retry, a, k), c.maxRetries, oracle, last => PostLoop(c, last), 0, None);
  }

  /** Attempts from k on all fail with a retryable status. */
  predicate StatusFailures(c: Client, oracle: nat -> Retry.Attempt, k: nat)
    decreases if k <= c.maxRetries then c.maxRetries - k + 1 else 0
  {
    k <= c.maxRetries ==>
      oracle(k).StatusRaised? && oracle(k).response.status in c.retryStatusCodes
      && StatusFailures(c, oracle, k + 1)
  }

  lemma {:induction false} StatusFailuresRetryable(c: Client, oracle: nat -> Retry.Attempt, k: nat)
    requires StatusFailures(c, oracle, k)
    ensures Retry.AllRetryable((a, j) => AttemptStep(c, true, a, j), c.maxRetries, oracle, k)
    decreases if k <= c.maxRetries then c.maxRetries - k + 1 else 0
  {
    if k <= c.maxRetries {
      StatusFailuresRetryable(c, oracle, k + 1);
    }
  }

  /** Against retryable statuses on every attempt, `max_retries = N` gives
      N+1 POSTs; sleep j is the 429's Retry-After or `retry_delay * 2**j`,
      and the last status's typed error is raised. */
  lemma AlwaysRetryableStatus(c: Client, payload: map<string, Json>, debug: bool, oracle: nat -> Retry.Attempt)
    requires Prepare(payload, debug).Ok? && c.maxRetries >= 0
    requires StatusFailures(c, oracle, 0)
    ensures var r := SendData(c, payload, debug, true, oracle);
            && r.posts == c.maxRetries + 1
            && |r.sleeps| == c.maxRetries
            && (forall j | 0 <= j < |r.sleeps| ::
                  oracle(j).StatusRaised? && r.sleeps[j] == StatusRetryDelay(c, oracle(j).response, j))
            && oracle(c.maxRetries).StatusRaised?
            && r.result.Err? && r.result.error == StatusError(oracle(c.maxRetries).response)
  {
    StatusRunEnd(c, oracle);
    StatusRunSleeps(c, oracle);
  }

  /** The loop against status failures: N+1 POSTs, N sleeps, and the last
      status's typed error. */
  lemma StatusRunEnd(c: Client, oracle: nat -> Retry.Attempt)
    requires c.maxRetries >= 0 && StatusFailures(c, oracle, 0)
    ensures var run := Retry.Drive((a, k) => AttemptStep(c, true, a, k), c.maxRetries, oracle,
                                   last => PostLoop(c, last), 0, None);
            && run.posts == c.maxRetries + 1
            && |run.sleeps| == c.maxRetries
            && oracle(c.maxRetries).StatusRaised?
            && run.result.Err? && run.result.error == StatusError(oracle(c.maxRetries).response)
  {
    StatusFailuresRetryable(c, oracle, 0);
    Retry.AlwaysRetryable((a, k) => AttemptStep(c, true, a, k), c.maxRetries, oracle, last => PostLoop(c, last), 0, None);
    StatusFailuresAt(c, oracle, 0, c.maxRetries);
  }

  /** ... whose sleeps are the delays the statuses ask for. */
  lemma StatusRunSleeps(c: Client, oracle: nat -> Retry.Attempt)
    requires c.maxRetries >= 0 && StatusFailures(c, oracle, 0)
    ensures var run := Retry.Drive((a, k) => AttemptStep(c, true, a, k), c.maxRetries, oracle,
                                   last => PostLoop(c, last), 0, None);
            forall j | 0 <= j < |run.sleeps| ::
              oracle(j).StatusRaised? && run.sleeps[j] == StatusRetryDelay(c, oracle(j).response, j)
  {
    StatusFailuresRetryable(c, oracle, 0);
    Retry.AlwaysRetryable((a, k) => AttemptStep(c, true, a, k), c.maxRetries, oracle, last => PostLoop(c, last), 0, None);
    var run := Retry.Drive((a, k) => AttemptStep(c, true, a, k), c.maxRetries, oracle, last => PostLoop(c, last), 0, None);
    StatusDelays(c, oracle, run.sleeps);
  }

  /** The sleeps between status failures are the delays those statuses ask for. */
  lemma StatusDelays(c: Client, oracle: nat -> Retry.Attempt, sleeps: seq<real>)
    requires StatusFailures(c, oracle, 0) && |sleeps| <= c.maxRetries
    requires forall j | 0 <= j < |sleeps| :: sleeps[j] == Retry.DelayAt((a, k) => AttemptStep(c, true, a, k), oracle, j)
    ensures forall j | 0 <= j < |sleeps| :: oracle(j).StatusRaised? && sleeps[j] == StatusRetryDelay(c, oracle(j).response, j)
  {
    forall j | 0 <= j < |sleeps|
      ensures oracle(j).StatusRaised? && sleeps[j] == StatusRetryDelay(c, oracle(j).response, j)
    {
      StatusFailuresAt(c, oracle, 0, j);
    }
  }

  lemma {:induction false} StatusFailuresAt(c: Client, oracle: nat -> Retry.Attempt, k: nat, j: nat)
    requires StatusFailures(c, oracle, k) && k <= j <= c.maxRetries
    ensures oracle(j).StatusRaised? && oracle(j).response.status in c.retryStatusCodes
    decreases j - k
  {
    if k < j {
      StatusFailuresAt(c, oracle, k + 1, j);
    }
  }

  // ---------------------------------------------------------------- batch_send

  /** What `send_data` does for each payload, payload i against `oracles(i)`. */
  function Outcomes(c: Client, payloads: seq<map<string, Json>>, debug: bool, retry: bool,
                    oracles: nat -> (nat -> Retry.Attempt)): (r: seq<Result<Json, Errors.Error>>)
    ensures |r| == |payloads|
    ensures forall i | 0 <= i < |payloads| :: r[i] == SendData(c, payloads[i], debug, retry, oracles(i)).result
  {
    seq(|payloads|, i requires 0 <= i < |payloads| => SendData(c, payloads[i], debug, retry, oracles(i)).result)
  }

  /** `gather(*tasks)` without return_exceptions: every value, or the first
      exception (in list order, see README). */
  function Gather(outcomes: seq<Result<Json, Errors.Error>>): (r: Result<seq<Json>, Errors.Error>)
    decreases |outcomes|
  {
    if |outcomes| == 0 then Ok([])
    else if outcomes[0].Err? then Err(outcomes[0].error)
    else
      var rest :- Gather(outcomes[1..]);
      Ok([outcomes[0].value] + rest)
  }

  /** Gather succeeds exactly when every coroutine does, with their values
      in order; otherwise it raises the first failure's exception. */
  lemma {:induction false} GatherSpec(outcomes: seq<Result<Json, Errors.Error>>)
    ensures Gather(outcomes).Ok? <==> forall i | 0 <= i < |outcomes| :: outcomes[i].Ok?
    ensures Gather(outcomes).Ok? ==>
              |Gather(outcomes).value| == |outcomes|
              && forall i | 0 <= i < |outcomes| :: Gather(outcomes).value[i] == outcomes[i].value
    ensures Gather(outcomes).Err? ==>
              exists f | 0 <= f < |outcomes| ::
                && outcomes[f].Err? && Gather(outcomes).error == outcomes[f].error
                && forall i | 0 <= i < f :: outcomes[i].Ok?
    decreases |outcomes|
  {
    if |outcomes| > 0 && outcomes[0].Ok? {
      var rest := outcomes[1..];
      GatherSpec(rest);
      if Gather(rest).Ok? {
        forall i | 0 <= i < |outcomes|
          ensures Gather(outcomes).value[i] == outcomes[i].value
        {
          if i > 0 {
            assert outcomes[i] == rest[i - 1];
          }
        }
      } else {
        var f :| 0 <= f < |rest| && rest[f].Err? && Gather(rest).error == rest[f].error
                 && forall i | 0 <= i < f :: rest[i].Ok?;
        assert outcomes[f + 1] == rest[f];
        forall i | 0 <= i < f + 1
          ensures outcomes[i].Ok?
        {
          if i > 0 {
            assert outcomes[i] == rest[i - 1];
          }
        }
      }
      if forall i | 0 <= i < |outcomes| :: outcomes[i].Ok? {
        forall i | 0 <= i < |rest|
          ensures rest[i].Ok?
        {
          assert rest[i] == outcomes[i + 1];
        }
      }
    } else if |outcomes| > 0 {
      assert !outcomes[0].Ok?;
    }
  }

  /** `batch_send(payloads, debug, retry, return_exceptions)`: `[]` for no
      payloads, every outcome with return_exceptions, else all values or
      the first exception. */
  function BatchSend(c: Client, payloads: seq<map<string, Json>>, debug: bool, retry: bool, returnExceptions: bool,
                     oracles: nat -> (nat -> Retry.Attempt)): (r: Result<seq<Result<Json, Errors.Error>>, Errors.Error>)
    ensures |payloads| == 0 ==> r == Ok([])
    ensures returnExceptions ==> r == Ok(Outcomes(c, payloads, debug, retry, oracles))
    ensures r.Ok? ==> |r.value| == |payloads|
    ensures !returnExceptions && r.Ok? ==> forall i | 0 <= i < |r.value| :: r.value[i].Ok?
  {
    if |payloads| == 0 then Ok([])
    else
      var outcomes := Outcomes(c, payloads, debug, retry, oracles);
      GatherSpec(outcomes);
      if returnExceptions || Gather(outcomes).Ok? then Ok(outcomes) else Err(Gather(outcomes).error)
  }

  // ------------------------------------------------------------ split_and_send

  /** One batch payload per chunk: the payload without "data", plus the chunk. */
  function Batches(base: map<string, Json>, chunks: seq<seq<Json>>): (r: seq<map<string, Json>>)
    ensures |r| == |chunks|
    ensures forall i | 0 <= i < |chunks| :: r[i] == base["data" := JArr(chunks[i])]
  {
    seq(|chunks|, i requires 0 <= i < |chunks| => base["data" := JArr(chunks[i])])
  }

  /** The "data" of each batch. */
  function DataOf(batches: seq<map<string, Json>>): (r: seq<seq<Json>>)
    requires forall i | 0 <= i < |batches| :: "data" in batches[i] && batches[i]["data"].JArr?
    ensures |r| == |batches|
    ensures forall i | 0 <= i < |batches| :: r[i] == batches[i]["data"].items
  {
    seq(|batches|, i requires 0 <= i < |batches| && "data" in batches[i] && batches[i]["data"].JArr?
                     => batches[i]["data"].items)
  }

  /** `split_and_send(payload, batch_size, debug, retry)`, batch i sent
      against `oracles(i)`. */
  function SplitAndSend(c: Client, payload: map<string, Json>, batchSize: int, debug: bool, retry: bool,
                        oracles: nat -> (nat -> Retry.Attempt)): (r: Result<map<string, Json>, Errors.Error>)
    ensures Validators.ValidatePayload(payload).Some? ==>
              r == Err(Errors.NewPayloadValidationError("Payload validation failed: " + Validators.ValidatePayload(payload).value))
    ensures r.Ok? ==> r.value.Keys == {"summary"}
  {
    match Validators.ValidatePayload(payload)
    case Some(message) => Err(Errors.NewPayloadValidationError("Payload validation failed: " + message))
    case None =>
      var data := payload["data"];
      if !Truthy(data) then Ok(Aggregate.SummaryJson(Aggregate.Zero))
      else
        match Batching.RangeChunks(data.items, batchSize)
        case Err(p) => Err(Errors.FromPy(p))
        case Ok(chunks) =>
          var results :- Gather(Outcomes(c, Batches(payload - {"data"}, chunks), debug, retry, oracles));
          MergedSummary(results)
  }

  /** The merged `{"summary": ...}` of the gathered responses. */
  function MergedSummary(results: seq<Json>): (r: Result<map<string, Json>, Errors.Error>)
    ensures r.Err? ==> r.error.Foreign?
  {
    match Aggregate.Merge(Aggregate.Zero, results)
    case Err(p) => Err(Errors.FromPy(p))
    case Ok(total) => Ok(Aggregate.SummaryJson(total))
  }

  /** The `if not data` branch is dead: a payload that passed validation has
      a non-empty data list. */
  lemma ValidDataIsTruthy(payload: map<string, Json>)
    requires Validators.ValidPayload(payload)
    ensures Truthy(payload["data"])
  {
  }

  /** Splitting a valid payload with a positive batch size gives ⌈n/bs⌉
      batches of at most bs entries each; their data concatenate to the
      original list, and every other key is carried over unchanged. */
  lemma SplitBatches(payload: map<string, Json>, batchSize: int)
    requires Validators.ValidPayload(payload) && batchSize > 0
    ensures var items := payload["data"].items;
            var chunks := Batching.RangeChunks(items, batchSize).value;
            var batches := Batches(payload - {"data"}, chunks);
            && |batches| == Batching.CeilDiv(|items|, batchSize)
            && (forall i | 0 <= i < |batches| :: batches[i] - {"data"} == payload - {"data"})
            && (forall i | 0 <= i < |batches| :: batches[i].Keys == payload.Keys)
            && Batching.Flatten(DataOf(batches)) == items
            && (forall i | 0 <= i < |batches| :: 0 < |batches[i]["data"].items| <= batchSize)
  {
    var items := payload["data"].items;
    var chunks := Batching.RangeChunks(items, batchSize).value;
    var batches := Batches(payload - {"data"}, chunks);
    assert DataOf(batches) == chunks;
    forall i | 0 <= i < |batches|
      ensures batches[i] - {"data"} == payload - {"data"}
      ensures batches[i].Keys == payload.Keys
      ensures 0 < |batches[i]["data"].items| <= batchSize
    {
      Batching.ChunkSizes(items, batchSize, i);
    }
  }

  /** What `send_data` does for each batch of a valid payload. */
  function BatchOutcomes(c: Client, payload: map<string, Json>, batchSize: int, debug: bool, retry: bool,
                         oracles: nat -> (nat -> Retry.Attempt)): seq<Result<Json, Errors.Error>>
    requires Validators.ValidPayload(payload) && batchSize > 0
  {
    var chunks := Batching.RangeChunks(payload["data"].items, batchSize).value;
    Outcomes(c, Batches(payload - {"data"}, chunks), debug, retry, oracles)
  }

  /** The responses of batches that all succeeded. */
  function Values(outcomes: seq<Result<Json, Errors.Error>>): (r: seq<Json>)
    requires forall i | 0 <= i < |outcomes| :: outcomes[i].Ok?
    ensures |r| == |outcomes|
    ensures forall i | 0 <= i < |outcomes| :: r[i] == outcomes[i].value
  {
    seq(|outcomes|, i requires 0 <= i < |outcomes| && outcomes[i].Ok? => outcomes[i].value)
  }

  /** When every coroutine returns, gather returns their values. */
  lemma GatherAllOk(outcomes: seq<Result<Json, Errors.Error>>)
    requires forall i | 0 <= i < |outcomes| :: outcomes[i].Ok?
    ensures Gather(outcomes).Ok? && Gather(outcomes).value == Values(outcomes)
  {
    GatherSpec(outcomes);
  }

  /** With a positive batch size and every batch answered with a mergeable
      response, the result is the summary of the exact sums over the batch
      responses. */
  lemma SplitAndSendTotals(c: Client, payload: map<string, Json>, batchSize: int, debug: bool, retry: bool,
                           oracles: nat -> (nat -> Retry.Attempt))
    requires Validators.ValidPayload(payload) && batchSize > 0
    requires forall i | 0 <= i < |BatchOutcomes(c, payload, batchSize, debug, retry, oracles)| ::
               && BatchOutcomes(c, payload, batchSize, debug, retry, oracles)[i].Ok?
               && Aggregate.Mergeable(BatchOutcomes(c, payload, batchSize, debug, retry, oracles)[i].value)
    ensures var results := Values(BatchOutcomes(c, payload, batchSize, debug, retry, oracles));
            && (forall i | 0 <= i < |results| :: Aggregate.Mergeable(results[i]))
            && SplitAndSend(c, payload, batchSize, debug, retry, oracles).Ok?
            && SplitAndSend(c, payload, batchSize, debug, retry, oracles).value
               == Aggregate.SummaryJson(Aggregate.Total(results))
  {
    var outcomes := BatchOutcomes(c, payload, batchSize, debug, retry, oracles);
    GatherAllOk(outcomes);
    SplitAndSendGathered(c, payload, batchSize, debug, retry, oracles);
    MergedTotal(Values(outcomes));
  }

  /** A valid payload whose batches all return: the result is the merged
      summary of the gathered responses. */
  lemma SplitAndSendGathered(c: Client, payload: map<string, Json>, batchSize: int, debug: bool, retry: bool,
                             oracles: nat -> (nat -> Retry.Attempt))
    requires Validators.ValidPayload(payload) && batchSize > 0
    requires Gather(BatchOutcomes(c, payload, batchSize, debug, retry, oracles)).Ok?
    ensures SplitAndSend(c, payload, batchSize, debug, retry, oracles)
            == MergedSummary(Gather(BatchOutcomes(c, payload, batchSize, debug, retry, oracles)).value)
  {
    var chunks := Batching.RangeChunks(payload["data"].items, batchSize).value;
    assert Validators.ValidatePayload(payload).None?;
    assert Truthy(payload["data"]);
    assert Batching.RangeChunks(payload["data"].items, batchSize).Ok?;
  }

  /** Mergeable responses merge into the summary of their exact sums. */
  lemma MergedTotal(results: seq<Json>)
    requires forall i | 0 <= i < |results| :: Aggregate.Mergeable(results[i])
    ensures MergedSummary(results).Ok? && MergedSummary(results).value == Aggregate.SummaryJson(Aggregate.Total(results))
  {
    Aggregate.MergeIsTotal(Aggregate.Zero, results);
    Aggregate.PlusZero(Aggregate.Total(results));
  }

  /** A zero batch size makes `range()` raise ValueError; a negative one
      sends nothing and reports zero counts. */
  lemma SplitBadBatchSize(c: Client, payload: map<string, Json>, batchSize: int, debug: bool, retry: bool,
                          oracles: nat -> (nat -> Retry.Attempt))
    requires Validators.ValidPayload(payload) && batchSize <= 0
    ensures batchSize == 0 ==> SplitAndSend(c, payload, batchSize, debug, retry, oracles)
                               == Err(Errors.Foreign("ValueError", "range() arg 3 must not be zero"))
    ensures batchSize < 0 ==> SplitAndSend(c, payload, batchSize, debug, retry, oracles)
                              == Ok(Aggregate.SummaryJson(Aggregate.Zero))
  {
  }
}
