/** The package's exception hierarchy (sendDetections/errors.py) as one tagged
    datatype, plus the two same-named classes that api_client.py and
    csv_converter.py define on their own, and every other Python exception. */
module Errors {
  import opened Wrappers
  import opened Json

  datatype Error =
    | SendDetectionsError(message: string)
    | ApiError(message: string, statusCode: Option<int>, responseData: map<string, Json>)
    | ApiAuthenticationError(message: string, statusCode: Option<int>, responseData: map<string, Json>)
    | ApiAccessDeniedError(message: string, statusCode: Option<int>, responseData: map<string, Json>)
    | ApiRateLimitError(message: string, statusCode: Option<int>, responseData: map<string, Json>,
                        retryAfter: Option<int>)
    | ApiServerError(message: string, statusCode: Option<int>, responseData: map<string, Json>)
    | ApiClientError(message: string, statusCode: Option<int>, responseData: map<string, Json>)
    | ApiConnectionError(message: string, statusCode: Option<int>, responseData: map<string, Json>)
    | ApiTimeoutError(message: string, statusCode: Option<int>, responseData: map<string, Json>)
    | PayloadValidationError(message: string, fieldErrors: seq<map<string, Json>>)
    | CSVConversionError(message: string, filePath: Option<string>, rowNumber: Option<int>)
    | ConfigurationError(message: string)
    | FileOperationError(message: string, filePath: Option<string>)
      // api_client.ApiError: derives from Exception, not from SendDetectionsError
    | SimpleClientApiError(message: string, statusCode: Option<int>)
      // csv_converter.CSVConversionError: derives from Exception only
    | ConverterError(message: string)
      // any built-in or library exception (TypeError, FileNotFoundError, ...)
    | Foreign(className: string, message: string)

  /** The classes of the hierarchy, each with its declared base class. */
  datatype Class =
    | ExceptionClass
    | SendDetectionsErrorClass | ApiErrorClass
    | ApiAuthenticationErrorClass | ApiAccessDeniedErrorClass | ApiRateLimitErrorClass
    | ApiServerErrorClass | ApiClientErrorClass | ApiConnectionErrorClass | ApiTimeoutErrorClass
    | PayloadValidationErrorClass | CSVConversionErrorClass | ConfigurationErrorClass
    | FileOperationErrorClass | SimpleClientApiErrorClass | ConverterErrorClass | ForeignClass

  /** The base class named in each `class X(Base)` line. */
  function Base(c: Class): Option<Class> {
    match c
    case ExceptionClass => None
    case SendDetectionsErrorClass => Some(ExceptionClass)
    case ApiErrorClass => Some(SendDetectionsErrorClass)
    case ApiAuthenticationErrorClass => Some(ApiErrorClass)
    case ApiAccessDeniedErrorClass => Some(ApiErrorClass)
    case ApiRateLimitErrorClass => Some(ApiErrorClass)
    case ApiServerErrorClass => Some(ApiErrorClass)
    case ApiClientErrorClass => Some(ApiErrorClass)
    case ApiConnectionErrorClass => Some(ApiErrorClass)
    case ApiTimeoutErrorClass => Some(ApiErrorClass)
    case PayloadValidationErrorClass => Some(SendDetectionsErrorClass)
    case CSVConversionErrorClass => Some(SendDetectionsErrorClass)
    case ConfigurationErrorClass => Some(SendDetectionsErrorClass)
    case FileOperationErrorClass => Some(SendDetectionsErrorClass)
    case SimpleClientApiErrorClass => Some(ExceptionClass)
    case ConverterErrorClass => Some(ExceptionClass)
    case ForeignClass => Some(ExceptionClass)
  }

  function Depth(c: Class): nat {
    match c
    case ExceptionClass => 0
    case SendDetectionsErrorClass | SimpleClientApiErrorClass | ConverterErrorClass | ForeignClass => 1
    case ApiErrorClass | PayloadValidationErrorClass | CSVConversionErrorClass
      | ConfigurationErrorClass | FileOperationErrorClass => 2
    case _ => 3
  }

  /** `issubclass(c, d)` by walking the declared bases. */
  predicate IsSubclass(c: Class, d: Class)
    decreases Depth(c)
  {
    c == d || (Base(c).Some? && Depth(Base(c).value) < Depth(c) && IsSubclass(Base(c).value, d))
  }

  function ClassOf(e: Error): Class {
    match e
    case SendDetectionsError(_) => SendDetectionsErrorClass
    case ApiError(_, _, _) => ApiErrorClass
    case ApiAuthenticationError(_, _, _) => ApiAuthenticationErrorClass
    case ApiAccessDeniedError(_, _, _) => ApiAccessDeniedErrorClass
    case ApiRateLimitError(_, _, _, _) => ApiRateLimitErrorClass
    case ApiServerError(_, _, _) => ApiServerErrorClass
    case ApiClientError(_, _, _) => ApiClientErrorClass
    case ApiConnectionError(_, _, _) => ApiConnectionErrorClass
    case ApiTimeoutError(_, _, _) => ApiTimeoutErrorClass
    case PayloadValidationError(_, _) => PayloadValidationErrorClass
    case CSVConversionError(_, _, _) => CSVConversionErrorClass
    case ConfigurationError(_) => ConfigurationErrorClass
    case FileOperationError(_, _) => FileOperationErrorClass
    case SimpleClientApiError(_, _) => SimpleClientApiErrorClass
    case ConverterError(_) => ConverterErrorClass
    case Foreign(_, _) => ForeignClass
  }

  /** `isinstance(e, errors.ApiError)`, as the call sites test it. */
  predicate IsApiError(e: Error) {
    e.ApiError? || e.ApiAuthenticationError? || e.ApiAccessDeniedError? || e.ApiRateLimitError?
    || e.ApiServerError? || e.ApiClientError? || e.ApiConnectionError? || e.ApiTimeoutError?
  }

  /** `isinstance(e, errors.SendDetectionsError)` */
  predicate IsSendDetectionsError(e: Error) {
    IsApiError(e) || e.SendDetectionsError? || e.PayloadValidationError? || e.CSVConversionError?
    || e.ConfigurationError? || e.FileOperationError?
  }

  /** The two predicates agree with the declared class hierarchy. */
  lemma {:induction false} HierarchyAgrees(e: Error)
    ensures IsApiError(e) <==> IsSubclass(ClassOf(e), ApiErrorClass)
    ensures IsSendDetectionsError(e) <==> IsSubclass(ClassOf(e), SendDetectionsErrorClass)
  {
    var c := ClassOf(e);
    if Depth(c) == 3 {
      assert IsSubclass(c, ApiErrorClass);
      assert IsSubclass(ApiErrorClass, SendDetectionsErrorClass);
    } else if Depth(c) == 2 {
      assert IsSubclass(c, SendDetectionsErrorClass);
    }
  }

  /** Every ApiError is a SendDetectionsError; the four non-API package
      errors and the two look-alike classes are not ApiErrors. */
  lemma ApiErrorsArePackageErrors(e: Error)
    ensures IsApiError(e) ==> IsSendDetectionsError(e)
    ensures (e.PayloadValidationError? || e.CSVConversionError? || e.ConfigurationError?
             || e.FileOperationError?) ==> IsSendDetectionsError(e) && !IsApiError(e)
    ensures (e.SimpleClientApiError? || e.ConverterError? || e.Foreign?) ==> !IsSendDetectionsError(e)
  {
  }

  /** `type(e).__name__`; the look-alike classes share their names. */
  function ClassName(e: Error): string {
    match e
    case SendDetectionsError(_) => "SendDetectionsError"
    case ApiError(_, _, _) => "ApiError"
    case ApiAuthenticationError(_, _, _) => "ApiAuthenticationError"
    case ApiAccessDeniedError(_, _, _) => "ApiAccessDeniedError"
    case ApiRateLimitError(_, _, _, _) => "ApiRateLimitError"
    case ApiServerError(_, _, _) => "ApiServerError"
    case ApiClientError(_, _, _) => "ApiClientError"
    case ApiConnectionError(_, _, _) => "ApiConnectionError"
    case ApiTimeoutError(_, _, _) => "ApiTimeoutError"
    case PayloadValidationError(_, _) => "PayloadValidationError"
    case CSVConversionError(_, _, _) => "CSVConversionError"
    case ConfigurationError(_) => "ConfigurationError"
    case FileOperationError(_, _) => "FileOperationError"
    case SimpleClientApiError(_, _) => "ApiError"
    case ConverterError(_) => "CSVConversionError"
    case Foreign(name, _) => name
  }

  /** `str(e)`: every class passes its message to `Exception.__init__`. */
  function Str(e: Error): string {
    e.message
  }

  function FromPy(p: PyError): Error {
    Foreign(p.className, p.message)
  }

  /** The kind of `ApiError` a constructor call names. */
  datatype ApiKind = Plain | Authentication | AccessDenied | RateLimit | Server | Client | Connection | Timeout

  /** `ApiX(message, status_code=None, response_data=None[, retry_after=None])`:
      the defaults of errors.py and its `response_data or {}`. */
  function NewApiError(kind: ApiKind, message: string, statusCode: Option<int> := None,
                       responseData: Option<map<string, Json>> := None,
                       retryAfter: Option<int> := None): (e: Error)
    ensures IsApiError(e) && IsSendDetectionsError(e)
    ensures e.message == message && e.statusCode == statusCode
    ensures e.responseData == (if responseData.Some? then responseData.value else map[])
    ensures e.ApiRateLimitError? <==> kind == RateLimit
    ensures e.ApiRateLimitError? ==> e.retryAfter == retryAfter
  {
    var data := if responseData.None? || |responseData.value| == 0 then map[] else responseData.value;
    match kind
    case Plain => ApiError(message, statusCode, data)
    case Authentication => ApiAuthenticationError(message, statusCode, data)
    case AccessDenied => ApiAccessDeniedError(message, statusCode, data)
    case RateLimit => ApiRateLimitError(message, statusCode, data, retryAfter)
    case Server => ApiServerError(message, statusCode, data)
    case Client => ApiClientError(message, statusCode, data)
    case Connection => ApiConnectionError(message, statusCode, data)
    case Timeout => ApiTimeoutError(message, statusCode, data)
  }

  /** `PayloadValidationError(message, field_errors=None)` */
  function NewPayloadValidationError(message: string, fieldErrors: Option<seq<map<string, Json>>> := None): (e: Error)
    ensures e.PayloadValidationError? && IsSendDetectionsError(e) && !IsApiError(e)
    ensures e.message == message
    ensures e.fieldErrors == (if fieldErrors.Some? then fieldErrors.value else [])
  {
    PayloadValidationError(message, if fieldErrors.None? || |fieldErrors.value| == 0 then [] else fieldErrors.value)
  }
}
