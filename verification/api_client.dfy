/** `DetectionApiClient.send_data` of api_client.py: validate, merge the
    options, make exactly one POST, and turn every failure into the module's
    own `ApiError(message, status_code)` (`Errors.SimpleClientApiError`). */
module SimpleClient {
  import opened Wrappers
  import opened Json
  import Text
  import Errors
  import Validators
  import Options
  import Retry
  import HttpErrors

  /** The `status_messages` table, with its `HTTP Error {code}` default. */
  function StatusPrefix(status: int): string {
    if status == 400 then "Bad Request: "
    else if status == 401 then "Authentication failed: "
    else if status == 403 then "Access denied: "
    else if status == 429 then "Too many requests: "
    else if status == 500 then "Server internal error: "
    else "HTTP Error " + Text.IntToString(status) + ": "
  }

  /** `error_msg`: the body's "message", else `str(e)`; any exception on the
      way (no JSON, no `.get`) falls back to `str(e)`. */
  function Detail(response: Retry.HttpResponse): (d: string)
    ensures response.json.Err? || !response.json.value.JObj? ==> d == response.errorText
    ensures response.json.Ok? && response.json.value.JObj? && "message" !in response.json.value.fields
            ==> d == response.errorText
    ensures response.json.Ok? && response.json.value.JObj? && "message" in response.json.value.fields
            ==> d == Show(response.json.value.fields["message"])
  {
    match response.json
    case Err(_) => response.errorText
    case Ok(body) =>
      match Get(body, "message", JStr(response.errorText))
      case Ok(m) => Show(m)
      case Err(_) => response.errorText
  }

  /** Both clients read the detail of an HTTP error alike: the enhanced
      client's `error_detail` (with `str(e)` as its fallback) gives the same
      text whenever it does not raise, and where it raises this client falls
      back to `str(e)`. */
  lemma DetailAgreesWithEnhanced(response: Retry.HttpResponse)
    ensures var e := HttpErrors.ErrorDetail(response, response.errorText);
            (e.Ok? ==> Detail(response) == e.value.1)
            && (e.Err? ==> Detail(response) == response.errorText)
  {
  }

  /** `raise_for_status()` raises for exactly the 4xx and 5xx codes. */
  predicate RaisesForStatus(status: int) {
    400 <= status < 600
  }

  /** What the one POST turns into. */
  function Outcome(attempt: Retry.Attempt): (r: Result<Json, Errors.Error>)
    ensures r.Err? ==> r.error.SimpleClientApiError?
    ensures (attempt.StatusRaised? || (attempt.Replied? && RaisesForStatus(attempt.response.status))) ==>
              r.Err? && r.error.statusCode == Some(attempt.response.status)
              && r.error.message == StatusPrefix(attempt.response.status) + Detail(attempt.response)
    ensures r.Err? && r.error.statusCode.None? ==>
              !attempt.StatusRaised? && !(attempt.Replied? && RaisesForStatus(attempt.response.status))
    ensures attempt.Replied? && !RaisesForStatus(attempt.response.status) ==>
              (r.Ok? <==> attempt.response.json.Ok?)
              && (r.Ok? ==> r.value == attempt.response.json.value)
    ensures attempt.ConnectFailed? ==>
              r.Err? && r.error.statusCode.None? && "Cannot connect to API server: " <= r.error.message
    ensures attempt.TimedOut? || attempt.Crashed?
            || (attempt.Replied? && !RaisesForStatus(attempt.response.status) && attempt.response.json.Err?) ==>
              r.Err? && r.error.statusCode.None? && "Unexpected error: " <= r.error.message
  {
    match attempt
    case Replied(response) =>
      if RaisesForStatus(response.status) then HttpFailure(response)
      else if response.json.Ok? then Ok(response.json.value)
      else Err(Errors.SimpleClientApiError("Unexpected error: " + response.json.error, None))
    case StatusRaised(response) => HttpFailure(response)
    case ConnectFailed(text) => Err(Errors.SimpleClientApiError("Cannot connect to API server: " + text, None))
    case TimedOut(text) => Err(Errors.SimpleClientApiError("Unexpected error: " + text, None))
    case Crashed(_, text) => Err(Errors.SimpleClientApiError("Unexpected error: " + text, None))
  }

  function HttpFailure(response: Retry.HttpResponse): Result<Json, Errors.Error> {
    Err(Errors.SimpleClientApiError(StatusPrefix(response.status) + Detail(response), Some(response.status)))
  }

  /** What `raise ValidationError(error, ApiPayload)` raises. Pydantic 2's
      ValidationError is a class of pydantic-core without a Python
      constructor, so calling it raises TypeError instead. */
  const NoConstructor := Errors.Foreign("TypeError", "No constructor defined")

  /** `send_data(payload, debug)` against the outcome of its POST, as
      written: an invalid payload raises `NoConstructor` before any POST. */
  function SendData(payload: map<string, Json>, debug: bool, attempt: Retry.Attempt): (r: Retry.Run<Json>)
    ensures r.posts <= 1 && r.sleeps == [] && !r.exitedLoop
    ensures Validators.ValidatePayload(payload).Some? ==> r.posts == 0 && r.result == Err(NoConstructor)
    ensures r.posts == 1 <==> Validators.ValidPayload(payload) && Options.AddDefaultOptions(payload, debug).Ok?
    ensures r.posts == 1 ==> r.result == Outcome(attempt)
  {
    match Validators.ValidatePayload(payload)
    case Some(_) => Retry.Run(Err(NoConstructor), 0, [], false)
    case None => Prepared(payload, debug, attempt)
  }

  /** `send_data` as its docstring intends: an invalid payload raises a
      ValidationError carrying the validator's message. */
  function SendDataIntended(payload: map<string, Json>, debug: bool, attempt: Retry.Attempt): (r: Retry.Run<Json>)
    ensures r.posts <= 1 && r.sleeps == [] && !r.exitedLoop
    ensures Validators.ValidatePayload(payload).Some? ==>
              r.posts == 0 && r.result == Err(Errors.Foreign("ValidationError", Validators.ValidatePayload(payload).value))
    ensures r.posts == 1 <==> Validators.ValidPayload(payload) && Options.AddDefaultOptions(payload, debug).Ok?
    ensures r.posts == 1 ==> r.result == Outcome(attempt)
  {
    match Validators.ValidatePayload(payload)
    case Some(message) => Retry.Run(Err(Errors.Foreign("ValidationError", message)), 0, [], false)
    case None => Prepared(payload, debug, attempt)
  }

  /** The steps after validation: merge the options, then the one POST. */
  function Prepared(payload: map<string, Json>, debug: bool, attempt: Retry.Attempt): Retry.Run<Json> {
    match Options.AddDefaultOptions(payload, debug)
    case Err(p) => Retry.Run(Err(Errors.FromPy(p)), 0, [], false)
    case Ok(_) => Retry.Run(Outcome(attempt), 1, [], false)
  }

  /** The two differ only in the exception an invalid payload raises: on a
      valid payload they agree, and on an invalid one the code as written
      never raises the ValidationError its docstring promises. */
  lemma SendDataDiffersOnlyOnInvalid(payload: map<string, Json>, debug: bool, attempt: Retry.Attempt)
    ensures Validators.ValidPayload(payload) ==> SendData(payload, debug, attempt) == SendDataIntended(payload, debug, attempt)
    ensures !Validators.ValidPayload(payload) ==>
              SendData(payload, debug, attempt).result.Err?
              && SendData(payload, debug, attempt).result.error.Foreign?
              && SendData(payload, debug, attempt).result.error.className == "TypeError"
              && SendDataIntended(payload, debug, attempt).result.error.className == "ValidationError"
  {
  }

  /** The empty payload `{}` shows it: a TypeError, not a ValidationError. */
  lemma EmptyPayloadRaisesTypeError(debug: bool, attempt: Retry.Attempt)
    ensures SendData(map[], debug, attempt).result == Err(Errors.Foreign("TypeError", "No constructor defined"))
    ensures SendDataIntended(map[], debug, attempt).result.error.className == "ValidationError"
  {
    assert !Validators.ValidPayload(map[]);
  }

  /** The test vector of tests/test_edge_cases.py: a 429 whose body says
      "Rate limit exceeded" yields a message holding both "Too many requests"
      and that text, with the status kept. */
  lemma TooManyRequestsExample(errorText: string)
    ensures var response := Retry.HttpResponse(429, "", Ok(JObj(map["message" := JStr("Rate limit exceeded")])), None, errorText);
            var r := Outcome(Retry.StatusRaised(response));
            && r.Err? && r.error.statusCode == Some(429)
            && Text.IsSubstring("Too many requests", r.error.message)
            && Text.IsSubstring("Rate limit exceeded", r.error.message)
  {
    var m := "Too many requests: " + "Rate limit exceeded";
    assert Text.OccursAt("Too many requests", m, 0);
    assert Text.OccursAt("Rate limit exceeded", m, 19);
  }
}
