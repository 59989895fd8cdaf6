/** `_handle_http_error` of enhanced_api_client.py and async_api_client.py:
    an HTTP error status becomes one of the typed `ApiError`s, and the
    success-path logging both clients do on a parsed body. */
module HttpErrors {
  import opened Wrappers
  import opened Json
  import Text
  import Errors
  import Retry

  /** The error class chosen for a status code. */
  function StatusKind(status: int): (k: Errors.ApiKind)
    ensures k == Errors.Authentication <==> status == 401
    ensures k == Errors.AccessDenied <==> status == 403
    ensures k == Errors.RateLimit <==> status == 429
    ensures k == Errors.Server <==> 500 <= status < 600
    ensures k == Errors.Client <==> status != 401 && status != 403 && status != 429 && !(500 <= status < 600)
  {
    if status == 401 then Errors.Authentication
    else if status == 403 then Errors.AccessDenied
    else if status == 429 then Errors.RateLimit
    else if 500 <= status < 600 then Errors.Server
    else Errors.Client
  }

  /** The text put before the detail in each class's message. */
  function MessagePrefix(status: int): string {
    match StatusKind(status)
    case Authentication => "Authentication failed: "
    case AccessDenied => "Access denied: "
    case RateLimit => "Rate limit exceeded: "
    case Server => "Server error (" + Text.IntToString(status) + "): "
    case _ => "API error (" + Text.IntToString(status) + "): "
  }

  /** `error_data` and `error_msg`: the parsed body and its "message" (else
      `fallback`), or `{}` and `fallback` when the body is not JSON. A JSON
      body that is not an object has no `.get`, and the AttributeError is
      not among the exceptions caught. */
  function ErrorDetail(response: Retry.HttpResponse, fallback: string): (r: Result<(map<string, Json>, string), PyError>)
    ensures r.Err? <==> response.json.Ok? && !response.json.value.JObj?
    ensures response.json.Err? ==> r == Ok((map[], fallback))
    ensures r.Ok? && response.json.Ok? ==>
              r.value.0 == response.json.value.fields
              && r.value.1 == (if "message" in r.value.0 then Show(r.value.0["message"]) else fallback)
  {
    match response.json
    case Err(_) => Ok((map[], fallback))
    case Ok(body) =>
      var message :- Get(body, "message", JStr(fallback));
      Ok((body.fields, Show(message)))
  }

  /** `retry_after`: `int(Retry-After)` for a 429 that carries the header,
      else None (also when `int()` fails). */
  function RetryAfterOf(response: Retry.HttpResponse): Option<int> {
    if response.status == 429 && response.retryAfter.Some? then Text.ParseInt(response.retryAfter.value)
    else None
  }

  /** The exception `_handle_http_error` raises for an error response. */
  function HandleHttpError(response: Retry.HttpResponse, fallback: string): (e: Errors.Error)
    ensures e.Foreign? <==> response.json.Ok? && !response.json.value.JObj?
    ensures e.Foreign? ==> e.className == "AttributeError"
    ensures !e.Foreign? ==>
              && Errors.IsApiError(e)
              && e.statusCode == Some(response.status)
              && e.message == MessagePrefix(response.status) + ErrorDetail(response, fallback).value.1
              && e.responseData == ErrorDetail(response, fallback).value.0
              && (e.ApiRateLimitError? <==> response.status == 429)
              && (e.ApiRateLimitError? ==> e.retryAfter == RetryAfterOf(response))
  {
    match ErrorDetail(response, fallback)
    case Err(p) => Errors.FromPy(p)
    case Ok((data, detail)) =>
      Errors.NewApiError(StatusKind(response.status), MessagePrefix(response.status) + detail,
                         Some(response.status), Some(data), RetryAfterOf(response))
  }

  /** Each status lands in the class its docstring names. */
  lemma HandleHttpErrorClass(response: Retry.HttpResponse, fallback: string)
    requires response.json.Err? || response.json.value.JObj?
    ensures var e := HandleHttpError(response, fallback);
            && (response.status == 401 <==> e.ApiAuthenticationError?)
            && (response.status == 403 <==> e.ApiAccessDeniedError?)
            && (response.status == 429 <==> e.ApiRateLimitError?)
            && (500 <= response.status < 600 <==> e.ApiServerError?)
            && (StatusKind(response.status) == Errors.Client <==> e.ApiClientError?)
  {
  }

  /** A JSON object body with a string "message" supplies the detail text. */
  lemma BodyMessageIsDetail(response: Retry.HttpResponse, fallback: string, text: string)
    requires response.json.Ok? && response.json.value.JObj?
    requires "message" in response.json.value.fields && response.json.value.fields["message"] == JStr(text)
    ensures HandleHttpError(response, fallback).message == MessagePrefix(response.status) + text
  {
  }

  /** The success-path log line: `"summary" in result`, then
      `summary.get(...)` three times (only the first can raise, since the
      other two ask the same value); true when a summary was logged. */
  function LogSummary(result: Json): (r: Result<bool, PyError>)
    ensures result.JObj? ==> (r.Ok? <==> "summary" !in result.fields || result.fields["summary"].JObj?)
    ensures r == Ok(true) ==> Contains(result, "summary") == Ok(true)
  {
    var has :- Contains(result, "summary");
    if !has then Ok(false)
    else
      var summary :- Subscript(result, "summary");
      var _ :- Get(summary, "submitted", JInt(0));
      Ok(true)
  }
}
