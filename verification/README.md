# sendDetections in Dafny

A model of the deterministic core of sendDetections. The tool submits
indicator-of-compromise detections to the Recorded Future Detection API.
The model covers:

- the two payload validators: the Pydantic contract and the older script checker;
- the CSV row to data-entry converter;
- the option merge of the three API clients;
- the two retry loops, the sync `EnhancedApiClient` and the async `AsyncApiClient`;
- batching, splitting and summary aggregation;
- the exception hierarchy, `PerformanceMetrics`, and the `ErrorAnalyzer`/`ErrorCollection` bookkeeping.

Everything is immutable data and total functions. JSON is the datatype
`Json.Json` (`JNull | JBool | JInt | JStr | JArr | JObj`). Python's `in`,
`x[k]`, `.get` and item assignment are modelled with their real semantics,
so a value of the wrong shape raises (`Errors.Foreign`) instead of being
silently ignored.

The network, the file system and the clock are parameters:

- an `oracle` gives the outcome of POST number k (`Retry.Attempt`);
- a `FileSystem` record answers file loads, CSV reads, `exists()` and `glob`.

Sleeps are not taken. They are recorded in the run (`Retry.Run.sleeps`), so
their lengths can be stated; what `time.sleep` raises for a delay it
rejects is modelled. `retry_delay` and durations are exact `real`s.

Modules follow the source files:

| module | file |
|---|---|
| Wrappers, Json, Text | helpers: Result/Option, JSON values with Python's dict semantics, `str` operations |
| Validators | sendDetections/validators.py |
| Script | sendDetection_script.py |
| CsvConverter | sendDetections/csv_converter.py |
| Errors | sendDetections/errors.py (and the two look-alike classes) |
| Options | `add_default_options` of the three clients, sendDetections/config.py |
| SimpleClient | sendDetections/api_client.py |
| HttpErrors | `_handle_http_error` of the enhanced and async clients |
| Retry | the retry loop both clients share |
| EnhancedClient | sendDetections/enhanced_api_client.py |
| AsyncClient | sendDetections/async_api_client.py |
| Batching, Aggregate | chunking with `range(0, n, size)` and the summary merge |
| BatchProcessor | sendDetections/batch_processor.py |
| Performance | sendDetections/performance.py |
| ErrorAnalyzer | sendDetections/error_analyzer.py |

The retry loops become one generic recursive function, `Retry.Drive`, over
a client-specific step function. `Retry.RetryLoop` is the loop as the
Python code runs it; it is a method whose loop invariants prove it equal to
`Drive`.

## Model

| member | source | states |
|---|---|---|
| Validators.IssuesEmptyIffValid | sendDetections/validators.py:9-58 | Pydantic reports no error exactly for payloads of the contract: a non-empty `data` list of entries with string `ioc.type`, `ioc.value` and `detection.type`, optional fields of the right type, and a non-empty `sub_type` for `detection_rule` |
| Validators.ValidatePayload | sendDetections/validators.py:62-86 | `validate_payload` returns None exactly for valid payloads; otherwise the message of the first reported error |
| Validators.FirstErrorMessage | sendDetections/validators.py:77-86 | only the first error is reported, as `Validation error at '<loc joined by ".">': <msg>`; an empty error list gives "Unknown validation error" |
| Validators.DataReportedFirst | sendDetections/validators.py:57 | a missing, non-list or empty `data` is the error reported, at location `data`, whatever else is wrong |
| Validators.ScalarTextIsNotChecked | sendDetections/validators.py:9-46 | validity ignores the text of `ioc.type`, `ioc.value` and `timestamp`: any strings, empty ones included, pass |
| Validators.DetectionRuleNeedsSubType | sendDetections/validators.py:31-36 | a `detection_rule` detection is accepted exactly when its `sub_type` is present and non-empty; otherwise the one error is at `data.0.detection` |
| Validators.RuleIssues | sendDetections/validators.py:31-36 | a `detection_rule` detection has one issue, at the detection, exactly when `sub_type` is missing or empty |
| Validators.ScenarioAccepted | sendDetections/validators.py:55-59 | a one-entry playbook payload is accepted |
| Validators.ScenarioSubTypeMessage | sendDetections/validators.py:34-35 | a `detection_rule` without `sub_type` is refused with a message naming `sub_type` |
| Validators.OptionValues | sendDetections/validators.py:49-52 | options read debug=False and summary=True when absent, else the given booleans |
| Options.MergedOptionValues | sendDetections/api_client.py:63-74 | on absent or dict options that pass the `ApiOptions` contract, the merged options still pass it and read as `(debug or before.debug, before.summary)`: merging the defaults changes no effective option except forcing debug on |
| Validators.EntriesEmpty | sendDetections/validators.py:39-46 | the entry list has no issues exactly when every entry is well formed |
| Script.DataChecksFirst | sendDetection_script.py:98-105 | a missing `data` gives "Required field 'data' is missing from the payload."; a non-list or empty `data` gives "'data' field must be a non-empty array."; only then are entries checked |
| Script.ScriptAcceptsIff | sendDetection_script.py:95-127 | the checker returns None exactly when every entry has `ioc` with `type` and `value`, `detection` with `type`, and `sub_type` when the type is `detection_rule` |
| Script.EntryPassesIff | sendDetection_script.py:105-125 | one entry passes exactly when every presence check finds its key |
| Script.EntriesPassIff | sendDetection_script.py:105-127 | the entry loop returns None exactly when every remaining entry passes |
| Script.FirstFailingEntry | sendDetection_script.py:105-125 | entries are checked in order, and the first failing entry's message is returned with its 1-based number |
| Script.PydanticValidPassesScript | sendDetection_script.py:95-127 | every payload the Pydantic contract accepts also passes the script |
| Script.EmptySubTypeOnlyPassesScript | sendDetection_script.py:124-125 | the converse fails: presence is all the script checks, so an empty `sub_type` passes it but not the Pydantic rule |
| Script.EnsureDebugMode | sendDetection_script.py:129-142 | afterwards `options` exists and no other key changes; it raises only when `options` is not a dict and would be written |
| Script.EnsureDebugModeEffect | sendDetection_script.py:132-140 | the flag forces debug=True; without it, a present debug is kept and an absent one becomes True; other option keys are unchanged |
| Script.EnsureDebugModeIdempotent | sendDetection_script.py:129-142 | running the step twice changes nothing more |
| CsvConverter.InferType | sendDetections/csv_converter.py:180-191 | the type is the first of ip, domain, hash, url, vuln→vulnerability found in the lower-cased Source, each chosen exactly when its fragment occurs and no earlier one does; "" when none occurs |
| CsvConverter.InferTypeIsFirstKeyword | sendDetections/csv_converter.py:180-191 | the chain of tests is a first-match lookup in the ordered table ip, domain, hash, url, vuln→vulnerability |
| CsvConverter.EntityIdRoundTrip | sendDetections/csv_converter.py:172-174 | with a ':' in Entity ID, type + ":" + value gives back the Entity ID; only the type is free of ':' |
| CsvConverter.EntityColumnFallback | sendDetections/csv_converter.py:175-191 | without a ':', the value is the Entity column (even when empty), else Entity ID, and the type is inferred from Source |
| CsvConverter.SplitList | sendDetections/csv_converter.py:233-234 | every list item is non-empty and stripped |
| CsvConverter.SplitListRoundTrip | sendDetections/csv_converter.py:233-242 | non-empty, stripped, comma-free items written as a comma-separated cell read back as the same list |
| CsvConverter.SplitListNoComma | sendDetections/csv_converter.py:234 | no list item contains a comma |
| CsvConverter.IocFields | sendDetections/csv_converter.py:205-222 | `ioc` holds the type and value, and `source_type` exactly when the Source Type column is non-empty |
| CsvConverter.DetectionFields | sendDetections/csv_converter.py:210-230 | `detection` holds Detectors and Description, and `sub_type`/`id` exactly when their columns are non-empty |
| CsvConverter.IncidentFields | sendDetections/csv_converter.py:245-251 | the incident holds exactly the non-empty Event columns |
| CsvConverter.EntryShape | sendDetections/csv_converter.py:205-253 | `timestamp`, `malwares`, `mitre_codes` and `incident` are present exactly when their columns (or split lists) are non-empty, with the column texts as values |
| CsvConverter.EntryKeys | sendDetections/csv_converter.py:205-253 | an entry and its parts have no keys beyond those the converter writes |
| CsvConverter.RowToEntry | sendDetections/csv_converter.py:194-202 | a row fails exactly when its type, value or Detectors is empty |
| CsvConverter.RowErrorOrder | sendDetections/csv_converter.py:194-202 | the ValueError names the first missing part: type, then value, then Detectors |
| CsvConverter.DetectionFieldsOk | sendDetections/csv_converter.py:210-226 | the converted detection satisfies the contract unless it is a `detection_rule` without Sub Type |
| CsvConverter.RowEntryValid | sendDetections/csv_converter.py:154-253 | a converted entry satisfies the Pydantic contract exactly when it is not a `detection_rule` without Sub Type |
| CsvConverter.ConvertRowsOk | sendDetections/csv_converter.py:81-84 | the row fold succeeds exactly when every row converts, and keeps the entries in row order |
| CsvConverter.ConvertRowsErr | sendDetections/csv_converter.py:81-86 | a failing fold names the first row that does not convert, with that row's message |
| CsvConverter.CsvToPayload | sendDetections/csv_converter.py:63-97 | every failure is the converter's CSVConversionError; an unreadable file gives "Failed to read CSV file: …"; a result is `{"data": entries}` and is valid |
| CsvConverter.FirstBadRowReported | sendDetections/csv_converter.py:81-86 | the first bad row is reported as "Error in row k: …" with its 1-based number k |
| CsvConverter.CsvToPayloadSucceeds | sendDetections/csv_converter.py:63-94 | a readable file converts exactly when it has a row and every row maps to an entry the contract accepts |
| CsvConverter.ObjectsOfFold | sendDetections/csv_converter.py:81-88 | the payload's entries are the rows' entries, in row order |
| Errors.HierarchyAgrees | sendDetections/errors.py:12-92 | `IsApiError` and `IsSendDetectionsError` agree with the declared subclass relation |
| Errors.ApiErrorsArePackageErrors | sendDetections/errors.py:19-92 | every ApiError is a SendDetectionsError; PayloadValidation, CSVConversion, Configuration and FileOperation errors are package errors but not ApiErrors; the look-alike classes of api_client.py and csv_converter.py are neither |
| Errors.NewApiError | sendDetections/errors.py:19-64 | the constructors default `status_code` to None and `response_data` to {}; only the rate-limit error carries `retry_after` |
| Errors.NewPayloadValidationError | sendDetections/errors.py:67-72 | `field_errors` defaults to [] |
| Options.AddDefaultOptions | sendDetections/api_client.py:52-76 | `options` is added when absent as {debug, summary: True}; debug=True forces `options.debug = True`; it raises only for a non-dict `options` under debug |
| Options.OtherKeysUnchanged | sendDetections/async_api_client.py:81-105 | every top-level key other than `options` keeps its value |
| Options.AddDefaultOptionsIdempotent | sendDetections/enhanced_api_client.py:80-104 | merging a second time changes nothing |
| Options.AddDefaultOptionsKeepsValid | sendDetections/api_client.py:52-76 | a valid payload stays valid after the merge, which fails on it only for `options: null` under debug |
| Options.AddDefaultOptionsShared | sendDetections/api_client.py:63-74 | as written: the shallow copy shares the caller's `options` dict, so the caller sees the merged options afterwards |
| Options.SharedOptionsMutateCaller | sendDetections/api_client.py:63-74 | a caller whose options do not already say debug=True finds them changed after a debug send |
| Options.SharedOptionsExample | sendDetections/api_client.py:63-74 | `{"data": [], "options": {"debug": False}}` sent with debug=True leaves the caller's options reading debug=True |
| Options.AddDefaultOptionsCopied | sendDetections/api_client.py:63-74 | as intended: the same merged payload, and the caller's payload is left as it was |
| Options.CopiedAgreesWithShared | sendDetections/api_client.py:63-76 | the two versions send the same payload and differ only in what the caller sees afterwards, never without debug |
| SimpleClient.Outcome | sendDetections/api_client.py:100-140 | an HTTP error keeps its status and gets the table's prefix and the body's "message"; connection errors get "Cannot connect to API server: " and everything else "Unexpected error: ", both without status |
| SimpleClient.Detail | sendDetections/api_client.py:113-117 | the detail is `str()` of the body's "message" when the body is a dict holding one, else `str(e)`, also when the body is not JSON or not a dict |
| SimpleClient.DetailAgreesWithEnhanced | sendDetections/api_client.py:113-117 | the detail is the one the enhanced client's error handling extracts, and `str(e)` where that extraction raises |
| SimpleClient.SendData | sendDetections/api_client.py:78-109 | an invalid payload raises TypeError("No constructor defined") before any POST; otherwise exactly one POST, with no retry and no sleep |
| SimpleClient.SendDataIntended | sendDetections/api_client.py:78-109 | as documented: an invalid payload raises a ValidationError carrying the validator's message before any POST; otherwise exactly one POST |
| SimpleClient.SendDataDiffersOnlyOnInvalid | sendDetections/api_client.py:94-95 | the two agree on every valid payload; on every invalid one the code as written raises TypeError where a ValidationError is documented |
| SimpleClient.EmptyPayloadRaisesTypeError | sendDetections/api_client.py:94-95 | `{}` raises TypeError as written and ValidationError as intended |
| SimpleClient.TooManyRequestsExample | sendDetections/api_client.py:120-130 | a 429 whose body says "Rate limit exceeded" gives a message holding "Too many requests" and that text, with status 429 |
| HttpErrors.StatusKind | sendDetections/enhanced_api_client.py:106-159 | 401, 403, 429 and 500-599 select their own classes and every other status the client-error class |
| HttpErrors.HandleHttpError | sendDetections/enhanced_api_client.py:106-159 | the raised error keeps the status, the body's data and "message" (else the fallback text) behind the class's prefix; a JSON body that is not a dict raises AttributeError instead |
| HttpErrors.HandleHttpErrorClass | sendDetections/async_api_client.py:107-161 | each status lands in the class the docstring names |
| HttpErrors.BodyMessageIsDetail | sendDetections/enhanced_api_client.py:106-159 | a dict body with a string "message" supplies the message text |
| HttpErrors.ErrorDetail | sendDetections/enhanced_api_client.py:106-159 | a body that is not JSON gives {} and the fallback text; a dict body gives itself and its "message" |
| HttpErrors.LogSummary | sendDetections/enhanced_api_client.py:224-233 | on a dict response, the success log line raises exactly when `summary` is present but is not a dict |
| Retry.RetryStatusCodes | sendDetections/async_api_client.py:67 | None and [] both select [429, 500, 502, 503, 504]; any other list is kept |
| Retry.Backoff | sendDetections/enhanced_api_client.py:256-261 | `retry_delay * 2**k` has the sign of `retry_delay` |
| Retry.DriveShape | sendDetections/enhanced_api_client.py:205-310 | the loop leaves by its condition only when it never runs; otherwise 1 to N+1 POSTs with one sleep between each two |
| Retry.AlwaysRetryable | sendDetections/enhanced_api_client.py:205-300 | against failures retried every time: one POST per attempt, the delays the steps ask for, and the last attempt's give-up error |
| Retry.SleepFailsAt | sendDetections/enhanced_api_client.py:205-300 | when the sleep before a retry raises, the loop ends with that exception after the POSTs made so far |
| Retry.DriveRetried | sendDetections/enhanced_api_client.py:265-266 | a retried attempt is one POST and one sleep, followed by the rest of the loop |
| Retry.RetryLoop | sendDetections/enhanced_api_client.py:202-310 | the imperative loop computes `Drive`; it exits by its condition exactly when max_retries < 0 |
| EnhancedClient.NewClient | sendDetections/enhanced_api_client.py:37-67 | the constructor keeps max_retries, retry_delay and silent, and defaults the retry statuses |
| EnhancedClient.Sleep | sendDetections/enhanced_api_client.py:253-263 | `time.sleep` accepts exactly the non-negative delays whose nanoseconds fit in a signed 64-bit integer; a delay outside that range raises OverflowError, a negative one in range ValueError |
| EnhancedClient.HttpRetryDelay | sendDetections/enhanced_api_client.py:249-263 | a 429 with an integer Retry-After sleeps that long; a negative one is caught and replaced by the backoff; one too large for `time.sleep` raises OverflowError, which the `except (ValueError, TypeError)` does not catch; every other case sleeps the backoff |
| EnhancedClient.HugeRetryAfterOverflows | sendDetections/enhanced_api_client.py:249-253 | a 429 whose delay-seconds Retry-After exceeds 9223372036 raises OverflowError instead of waiting |
| EnhancedClient.HttpErrorStep | sendDetections/enhanced_api_client.py:242-269 | an HTTP error is retried exactly when `retry` is on and its status is retryable; otherwise `_handle_http_error` raises |
| EnhancedClient.SuccessStep | sendDetections/enhanced_api_client.py:218-240 | a 2xx body is returned, `{}` when it does not parse; only the log line on a malformed summary can raise |
| EnhancedClient.AttemptStep | sendDetections/enhanced_api_client.py:205-300 | a raised status or a 4xx/5xx reply is retried exactly when `retry` is on and the status is retryable, after `HttpRetryDelay`, else raises `_handle_http_error`'s error; any other reply is `SuccessStep`; timeouts and connection errors are retried exactly when `retry` is on, after the backoff, else raise ApiTimeoutError or ApiConnectionError "Connection failed: …"; anything else is "Unexpected error", never retried |
| EnhancedClient.Prepare | sendDetections/enhanced_api_client.py:188-199 | an invalid payload raises PayloadValidationError with the validator's text; otherwise the merged payload, unless the log line raises |
| EnhancedClient.SendData | sendDetections/enhanced_api_client.py:161-310 | nothing is posted when preparation fails; otherwise the retry loop runs over the oracle |
| EnhancedClient.InvalidPayloadNotSent | sendDetections/enhanced_api_client.py:189-190 | an invalid payload raises PayloadValidationError with no POST |
| EnhancedClient.SendDataShape | sendDetections/enhanced_api_client.py:205-310 | with max_retries >= 0 the code after the loop is unreachable; at most N+1 POSTs, one sleep between each two |
| EnhancedClient.AlwaysTimingOut | sendDetections/enhanced_api_client.py:271-282 | a server that always times out gets N+1 POSTs and N sleeps of `retry_delay * 2**k`, then ApiTimeoutError, when `time.sleep` accepts each of those delays |
| EnhancedClient.TimeoutBackoffFails | sendDetections/enhanced_api_client.py:271-282 | otherwise the first backoff `time.sleep` rejects ends the call after j+1 POSTs with that sleep's exception, which is not an ApiError |
| EnhancedClient.UnparseableBodyGivesEmpty | sendDetections/enhanced_api_client.py:236-240 | a 2xx body that is not JSON yields `{}` after one POST |
| EnhancedClient.BatchFromOk | sendDetections/enhanced_api_client.py:332-357 | the batch succeeds exactly when every outcome is a response or, under continue_on_error, an ApiError; an ApiError then becomes its record with the payload's index |
| EnhancedClient.BatchFromErr | sendDetections/enhanced_api_client.py:334-355 | a failing batch stops at the first intolerable payload and raises its exception; nothing after it is sent |
| EnhancedClient.InvalidPayloadStopsBatch | sendDetections/enhanced_api_client.py:339-355 | a PayloadValidationError is not an ApiError, so it stops the batch even under continue_on_error |
| AsyncClient.NewClient | sendDetections/async_api_client.py:36-67 | the constructor keeps max_retries and retry_delay and defaults the retry statuses |
| AsyncClient.StatusError | sendDetections/async_api_client.py:284-294 | a ClientResponseError that is not retried becomes the class for its status, with `str(e)` as message, the status kept and no retry_after |
| AsyncClient.SuccessStep | sendDetections/async_api_client.py:238-256 | a body is returned, `{}` when it does not parse; only the log line on a malformed summary can raise |
| AsyncClient.AttemptStep | sendDetections/async_api_client.py:215-325 | a ClientResponseError is retried exactly when `retry` is on and its status is retryable; a status >= 400 reply raises inside the try and ends as "Unexpected error"; a connection error retried or not carries ApiConnectionError "Connection failed: …" |
| AsyncClient.Prepare | sendDetections/async_api_client.py:190-200 | an invalid payload raises PayloadValidationError; otherwise the merged payload, when the log line's `.get` succeeds |
| AsyncClient.SendData | sendDetections/async_api_client.py:163-345 | nothing is posted when preparation fails; otherwise the retry loop runs over the oracle |
| AsyncClient.ErrorStatusNotRetried | sendDetections/async_api_client.py:230-325 | a reply with status >= 400 is posted once, never retried, and ends as a plain ApiError "Unexpected error: …" without status |
| AsyncClient.PostLoopUnreachable | sendDetections/async_api_client.py:215-345 | with max_retries >= 0 the "after N retries" code is unreachable; at most N+1 POSTs |
| AsyncClient.AlwaysRetryableStatus | sendDetections/async_api_client.py:258-294 | retryable statuses on every attempt give N+1 POSTs; sleep j is the 429's Retry-After or `retry_delay * 2**j`; the last status's typed error is raised |
| AsyncClient.StatusDelays | sendDetections/async_api_client.py:265-279 | the sleeps between status failures are the delays those statuses ask for |
| AsyncClient.GatherSpec | sendDetections/async_api_client.py:379-385 | gather succeeds exactly when every coroutine does, with their values in order; otherwise it raises the first failure's exception |
| AsyncClient.BatchSend | sendDetections/async_api_client.py:347-385 | no payloads give []; with return_exceptions every outcome is returned in order; otherwise all values |
| AsyncClient.Batches | sendDetections/async_api_client.py:428-432 | batch i is the payload without `data`, plus chunk i |
| AsyncClient.ValidDataIsTruthy | sendDetections/async_api_client.py:411-418 | the empty-`data` branch is dead: a payload that passed validation has a non-empty `data` |
| AsyncClient.SplitBatches | sendDetections/async_api_client.py:421-432 | a positive batch size gives ⌈n/bs⌉ batches whose data concatenate to the original list, each carrying every other key unchanged |
| AsyncClient.SplitAndSend | sendDetections/async_api_client.py:387-455 | an invalid payload raises PayloadValidationError; a result holds only `summary` |
| AsyncClient.SplitAndSendTotals | sendDetections/async_api_client.py:438-455 | when every batch returns a mergeable response, the result is the summary of the exact sums over the responses |
| AsyncClient.MergedTotal | sendDetections/async_api_client.py:441-448 | mergeable responses merge into the summary of their exact sums |
| AsyncClient.SplitBadBatchSize | sendDetections/async_api_client.py:428 | a zero batch size makes `range()` raise ValueError; a negative one sends nothing and returns zero counts |
| Batching.ChunksFlatten | sendDetections/async_api_client.py:428-431 | concatenating the chunks gives back the input |
| Batching.ChunksCount | sendDetections/async_api_client.py:428-431 | there are ⌈n/size⌉ chunks |
| Batching.ChunkAt | sendDetections/async_api_client.py:431 | chunk i is exactly the slice `xs[i*size : i*size+size]` |
| Batching.ChunkSizes | sendDetections/async_api_client.py:428-431 | every chunk is non-empty and holds at most `size` items, and all but the last hold exactly `size` |
| Batching.RangeChunks | sendDetections/performance.py:373-374 | a zero step raises, a negative one gives no chunk, a positive one gives ⌈n/size⌉ chunks that concatenate to the input |
| Aggregate.AddTo | sendDetections/async_api_client.py:446-448 | `n += v` succeeds exactly for an int (or bool) v and adds it |
| Aggregate.AddResultSpec | sendDetections/async_api_client.py:443-448 | on a dict, one step adds exactly the response's contribution and fails exactly when the response is not mergeable |
| Aggregate.MergeIsTotal | sendDetections/async_api_client.py:441-448 | the merged summary is the exact sum of the responses' counters, missing counters adding 0 |
| Aggregate.MergeFails | sendDetections/async_api_client.py:443-448 | over dicts, the merge fails exactly when some response is not mergeable |
| Aggregate.SummaryLessAddsNothing | sendDetections/async_api_client.py:444 | responses without `summary` add nothing |
| BatchProcessor.NewProcessor | sendDetections/batch_processor.py:32-62 | the processor keeps its batch size, and its client gets max_retries with the other defaults |
| BatchProcessor.LoadJson | sendDetections/batch_processor.py:94-106 | a missing file raises FileNotFoundError and bad JSON JSONDecodeError; a load succeeds exactly for a dict whose `data`, if any, has a length |
| BatchProcessor.LoadAllSpec | sendDetections/batch_processor.py:93-106 | every file loads and the payloads line up with the paths, or the first file that does not load supplies the exception |
| BatchProcessor.TallyIsContributions | sendDetections/batch_processor.py:122-133 | exceptions count as failures and add nothing; each response counts as a success and adds its summary |
| BatchProcessor.ContributionsAreTotal | sendDetections/batch_processor.py:129-133 | the added summaries are the exact sums over the responses alone |
| BatchProcessor.Summarise | sendDetections/batch_processor.py:118-133 | successful + failed is the number of results |
| BatchProcessor.SummariseTotals | sendDetections/batch_processor.py:118-146 | with every response mergeable, the totals are the exact sums over the responses, successes are the responses and failures the exceptions |
| BatchProcessor.ProcessFiles | sendDetections/batch_processor.py:69-146 | no paths give a zero summary without sending; a load error propagates with nothing sent; otherwise every file is sent and successful + failed is the number of files |
| BatchProcessor.BadFileNothingSent | sendDetections/batch_processor.py:93-111 | a file that does not load stops the run before anything is sent, with the exception of the first such file |
| BatchProcessor.ProcessFilesSends | sendDetections/batch_processor.py:108-146 | when every file loads, one payload per file is sent and the run ends with the aggregation of the results |
| BatchProcessor.CsvLoadError | sendDetections/batch_processor.py:176-184 | a failed conversion is the converter's CSVConversionError |
| BatchProcessor.ProcessCsvFiles | sendDetections/batch_processor.py:148-224 | every CSV is converted before anything is sent, and a conversion error propagates with nothing sent |
| BatchProcessor.CsvPayloadsValid | sendDetections/batch_processor.py:176-193 | converted payloads pass validation inside `send_data` |
| BatchProcessor.GlobPattern | sendDetections/batch_processor.py:253-256 | the pattern is prefixed with `**/` exactly when recursive |
| BatchProcessor.ProcessDirectory | sendDetections/batch_processor.py:226-269 | a missing directory raises FileNotFoundError; no match gives a zero summary; otherwise it is `process_files` on the matches |
| BatchProcessor.ProcessLargePayload | sendDetections/batch_processor.py:271-294 | `split_and_send` with the processor's batch size; a result holds only `summary` |
| Performance.FreshValid | sendDetections/performance.py:34-58 | a fresh metrics object satisfies the invariant |
| Performance.RecordApiCall | sendDetections/performance.py:81-100 | one more call and exactly one more success or failure; min/max move only on success and bound the duration; a batch size is kept only when given and positive; the invariant is kept |
| Performance.RecordRetry | sendDetections/performance.py:102-104 | one more retry and nothing else changes |
| Performance.RecordEntities | sendDetections/performance.py:106-113 | the entity count rises by `count` and nothing else changes |
| Performance.RecordError | sendDetections/performance.py:115-124 | the type goes from absent to 1, else up by 1; other types are unchanged |
| Performance.HistogramCounts | sendDetections/performance.py:115-124 | from fresh, the histogram's types are the types seen, each counted as often as it was seen |
| Performance.End | sendDetections/performance.py:64-79 | once started and with sizes recorded, the optimal batch size becomes the integer mean of the sizes; otherwise nothing changes |
| Performance.OptimalWithinRange | sendDetections/performance.py:77-79 | the optimal batch size is the floor of the mean: at least 1 and at most the largest size |
| Performance.GetSummary | sendDetections/performance.py:126-158 | the success rate is 0 without calls, else success/total·100; min_call_time is 0 until a success |
| Performance.SuccessRateBounded | sendDetections/performance.py:138 | a valid state reports a success rate between 0 and 100 |
| Performance.ProcessInBatches | sendDetections/performance.py:344-382 | empty input gives []; a zero batch size raises ValueError; a negative one gives [] |
| Performance.ProcessInBatchesIsMap | sendDetections/performance.py:368-382 | with an element-wise batch function and a positive size, batching is the same as mapping the items: order kept, nothing lost or repeated |
| Performance.RunBatchesErr | sendDetections/performance.py:378-380 | the first batch whose call raises ends the run with that exception |
| ErrorAnalyzer.BumpCounts | sendDetections/error_analyzer.py:381-383 | counting a key adds one to it and changes no other |
| ErrorAnalyzer.BumpShape | sendDetections/error_analyzer.py:381-383 | a new key goes last and the other keys keep their places |
| ErrorAnalyzer.CountAllSpec | sendDetections/error_analyzer.py:161 | a Counter fails exactly on an unhashable value, counts each value as often as it occurs, sums to the length, and has one entry per value exactly when the values are distinct |
| ErrorAnalyzer.FirstMax | sendDetections/error_analyzer.py:175 | `most_common(1)` picks the first entry with the largest count |
| ErrorAnalyzer.Entry | sendDetections/error_analyzer.py:386-403 | the entry has id, type and message unless the context overrides them; context keys are copied; `status_code`/`exception` only for exceptions |
| ErrorAnalyzer.AddError | sendDetections/error_analyzer.py:357-406 | the entry numbered one past the count is appended last and the count rises by one; it raises exactly for an unhashable type |
| ErrorAnalyzer.AddErrorValid | sendDetections/error_analyzer.py:381-406 | the type counts still sum to the error count, and only the error's own type is counted up |
| ErrorAnalyzer.OfTypeAppend | sendDetections/error_analyzer.py:418-419 | filtering by type keeps insertion order |
| ErrorAnalyzer.GetErrors | sendDetections/error_analyzer.py:408-420 | no type or an empty one gives every entry; otherwise exactly the entries of that type |
| ErrorAnalyzer.GetSummary | sendDetections/error_analyzer.py:422-435 | `most_common_type` is None exactly without types, else the first type with the largest count; `has_api_errors` exactly when some entry has a non-null status_code |
| ErrorAnalyzer.MostCommonWhenAny | sendDetections/error_analyzer.py:432 | a valid collection has a most common type exactly when it holds an error |
| ErrorAnalyzer.AnalyzeError | sendDetections/error_analyzer.py:91-137 | a classified message takes the pattern's type and suggestion, else the error's own type and "No specific suggestion available"; a non-string message raises |
| ErrorAnalyzer.AnalyzeBatch | sendDetections/error_analyzer.py:139-197 | no errors give the empty report; otherwise one analysed error per input, and `has_patterns` exactly when there are fewer types than errors |
| ErrorAnalyzer.AnalyzeBatchCounts | sendDetections/error_analyzer.py:158-175 | the report counts each analysed type as often as it occurs, and finds a pattern exactly when two errors share a type |
| ErrorAnalyzer.AnalyzeBatchFails | sendDetections/error_analyzer.py:139-197 | the analysis succeeds whenever every message is a string and every type can be a dict key |
| ErrorAnalyzer.SuggestFixes | sendDetections/error_analyzer.py:199-280 | no errors give []; otherwise the fixes of the present known types in the fixed order RateLimit, Authentication, Validation, Connection, Timeout, CSVConversion, or one general fix when none is present |
| ErrorAnalyzer.KnownFixes | sendDetections/error_analyzer.py:216-270 | one fix per present known type, in the fixed order; none exactly when no known type is present |
| ErrorAnalyzer.Analyze | sendDetections/error_analyzer.py:437-452 | an empty collection gives nothing to analyse; the suggestions are `suggest_fixes` of the analysis |
| Text.DelaySecondsParse | sendDetections/enhanced_api_client.py:249-253 | a delay-seconds Retry-After (RFC 9110 section 10.2.3) parses with `int()` as its non-negative decimal value |
| Text.ForeignCharNotInt | sendDetections/enhanced_api_client.py:249-258 | `int()` fails on every text holding a character other than a digit, whitespace, a sign or '_' |
| Text.HttpDateIsNotInt | sendDetections/enhanced_api_client.py:249-258 | every Retry-After value holding a ':', as every HTTP-date does, fails `int()`, so it falls back to the backoff |
| Text.JoinSplit | sendDetections/csv_converter.py:234 | splitting joined pieces that hold no separator gives the pieces back |
| Text.SplitJoin | sendDetections/csv_converter.py:234 | joining the pieces of a split with the separator gives back the string |
| Text.StripIdempotent | sendDetections/csv_converter.py:234 | a stripped string is its own strip |

## Left out

- HTTP transport: sessions, headers and real timeouts. An oracle gives the outcome of POST number k. The raised HTTP-status exception is one outcome (`StatusRaised`), as the tests mock it.
- Concurrency: the asyncio semaphore and `gather` are modelled as an order-preserving sequential map. With several failures, the first in list order is raised. The semaphore is held around the whole retry loop, so it limits nothing in a sequential model.
- Wall-clock values: `datetime`, `total_time`, `avg_time`, `entities_per_second`, the timing decorators and `measure_time`. `start()` records only that a start time exists.
- `process_with_progress` (asyncio and tqdm) and the progress bar of `process_in_batches`.
- Regular-expression classification: the patterns of `analyze_error` and `_extract_validation_fields` are parameters (`classify`, `extractFields`).
- Pydantic internals: lax coercion and the exact wording of its messages. Messages are one symbolic kind per error.
- Floating point: durations and `retry_delay` are exact reals, so rounding and `inf` are not modelled. `float('inf')` as the initial minimum is `None`. `time.sleep`'s 64-bit nanosecond bound is applied to the exact product of the delay and 10**9, not to its rounded float.
- AsyncClient.StatusRetryDelay: `asyncio.sleep` accepts every number the model passes it; a Retry-After integer beyond the float range (over 308 digits) would make its `loop.time() + delay` raise OverflowError, which is not modelled.
- Text.Lower: lower-cases ASCII letters only. Python's `str.lower()` maps other letters too, so the lower-cased Source can differ from Python's outside ASCII.
- Text.ParseInt: reads ASCII digits only. Python's `int()` also accepts other Unicode decimal digits (such as Arabic-Indic ones), which `ForeignCharNotInt` counts as foreign; a Retry-After value that follows RFC 9110 is ASCII, so its reading is unaffected.
- JSON numbers other than integers: `Json` has no float case, so a response holding `2.5` cannot be expressed.
- Aggregate.AddTo: a float counter, which Python's `+=` would add, is outside the model because `Json` has no float case; the "succeeds exactly for an int or bool" contract is over the values `Json` can hold.
- `str()` of a dict or list is not rendered; `Json.Show` gives a placeholder.
- The timestamps of error-collection entries and of analysed errors are a parameter.
- The order of the field names `_extract_validation_fields` collects comes from set iteration and is left to `extractFields`.
- `generate_report`, `to_json`, `log_summary`, and every log call except the ones whose argument evaluation can raise.
- `ErrorAnalyzer.Entry`: `if context:` treats an empty dict like no context. A context that overrides `type` changes the entry but not the type counter, which uses the extracted type; both behaviours are kept, not flagged.
- The `suggestions`/`primary_suggestion` counts of `analyze_batch`: the model keeps the analysed errors' suggestions but states nothing about their counts.
- `ConnectTimeout` as a subclass of both requests exceptions, and aiohttp's `ContentTypeError` detail: an unparseable body is one outcome.
- `CSVConverter.find_csv_files`, `convert_file` and `run`, and `BatchProcessor.process_large_file`: file I/O around the modelled operations.
- CSV file opening, `csv.DictReader`, `glob`, dotenv and JSON encode/decode: a CSV file is given as its rows or as unreadable; globbing is a parameter.
- CsvConverter.CsvToPayload: the `csv.Error` that `csv.DictReader` raises while iterating (a NUL byte, a field over the size limit) is not modelled. It is neither an IOError nor caught per row, so it would escape as `csv.Error`, not as CSVConversionError; the contract "every failure is CSVConversionError" holds only for files given as rows or as unreadable.
- CsvConverter.Row: a row maps every column to a string. `csv.DictReader` gives `None` for the missing cells of a short row and files a long row's extra cells under the key `None`. A `None` Entity ID would make `':' in entity_id` raise TypeError, reported as "Error in row n: …"; a `None` Entity or Detectors cell would fail as empty; a `None` Description would become a `null` name. None of these rows is modelled.
- `exporters.py`, `error_formatter.py`, `logging_config.py`, `visualize.py`: presentation and file output.
- `sendDetections/__main__.py`: CLI plumbing that imports names `config.py` does not define.
- `sendDetections.py`, and `load_json_file`, `send_data`, `get_api_token` and `main` of sendDetection_script.py: I/O around the modelled checker.
- `setup.py`, `debug_logging.py`, `docs/request_sample.py` and `scripts/csv_to_payload_json.py` are not part of this model.
- Tests that assert behaviour the code does not have: IoC-type and detection-type enums, non-empty values, ISO-8601 timestamps, BatchProcessor metrics, organizations, and async retry on a 5xx reply status.
- Performance.End: the quotient is taken on ints; the source computes `int(sum / len)` in floating point, which agrees whenever the sum is below 2**53.
- AsyncClient.SplitAndSend: it states only the validation error and the result's shape directly; the totals are stated by `AsyncClient.SplitAndSendTotals` under the condition that every batch returns a mergeable response.

## Findings

| source | as written | input that shows it | evidently intended | confidence | as-written member | corrected member |
|---|---|---|---|---|---|---|
| sendDetections/api_client.py:63-74 (the same code is at sendDetections/enhanced_api_client.py:80-104 and sendDetections/async_api_client.py:81-105) | `payload.copy()` is shallow, so `result["options"]["debug"] = True` writes into the caller's own `options` dict | `{"data": [], "options": {"debug": False}}` with debug=True: afterwards the caller's payload reads `options.debug == True` | "Make a copy to avoid modifying the original": the caller's payload is left unchanged | not executed | Options.SharedOptionsExample | Options.AddDefaultOptionsCopied |
| sendDetections/api_client.py:94-95 | `raise ValidationError(error, ApiPayload)` calls pydantic 2's ValidationError, which has no Python constructor, so the call itself raises `TypeError("No constructor defined")` | the payload `{}` passed to `send_data` | the docstring's "ValidationError: On invalid payload structure", carrying the validator's message | not executed | SimpleClient.EmptyPayloadRaisesTypeError | SimpleClient.SendDataIntended |
