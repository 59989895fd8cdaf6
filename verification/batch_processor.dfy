/** `BatchProcessor` of batch_processor.py: load every file, hand all
    payloads to `AsyncApiClient.batch_send` with return_exceptions, and add
    up the summaries of the responses. The file system is a parameter. */
module BatchProcessor {
  import opened Wrappers
  import opened Json
  import Errors
  import Retry
  import AsyncClient
  import Aggregate
  import CsvConverter

  /** The processor's settings and the client it builds. */
  datatype Processor = Processor(batchSize: int, client: AsyncClient.Client)

  /** `BatchProcessor(api_token, ..., batch_size, max_retries)`: the client
      gets `max_retries` and keeps its other defaults. */
  function NewProcessor(batchSize: int := 100, maxRetries: int := 3): (p: Processor)
    ensures p.batchSize == batchSize && p.client == AsyncClient.NewClient(maxRetries)
  {
    Processor(batchSize, AsyncClient.NewClient(maxRetries))
  }

  /** What opening and `json.load`ing a file gives. */
  datatype FileContent = Missing | BadJson(reason: string) | Parsed(value: Json)

  /** The file system the processor looks at: which paths exist (`directory.exists()`), what
      `directory.glob(pattern)` lists, and each file's content. */
  datatype FileSystem = FileSystem(
    pathExists: string -> bool,
    glob: (string, string) -> seq<string>,
    json: string -> FileContent,
    csv: string -> CsvConverter.CsvFile)

  /** `len(x)` for the values that have one. */
  function Len(v: Json): Result<nat, PyError> {
    match v
    case JStr(s) => Ok(|s|)
    case JArr(xs) => Ok(|xs|)
    case JObj(m) => Ok(|m|)
    case _ => Err(PyError("TypeError", "object of type '" + TypeName(v) + "' has no len()"))
  }

  /** Loading one JSON file, including the debug line that reads
      `len(payload.get("data", []))`. */
  function LoadJson(fs: FileSystem, path: string): (r: Result<map<string, Json>, Errors.Error>)
    ensures fs.json(path).Missing? ==> r.Err? && r.error.Foreign? && r.error.className == "FileNotFoundError"
    ensures fs.json(path).BadJson? ==> r == Err(Errors.Foreign("JSONDecodeError", fs.json(path).reason))
    ensures r.Ok? <==> fs.json(path).Parsed? && fs.json(path).value.JObj?
                       && ("data" in fs.json(path).value.fields ==> Len(fs.json(path).value.fields["data"]).Ok?)
    ensures r.Ok? ==> r.value == fs.json(path).value.fields
  {
    match fs.json(path)
    case Missing => Err(Errors.Foreign("FileNotFoundError", "[Errno 2] No such file or directory: '" + path + "'"))
    case BadJson(reason) => Err(Errors.Foreign("JSONDecodeError", reason))
    case Parsed(v) =>
      if !v.JObj? then Err(Errors.Foreign("AttributeError", "'" + TypeName(v) + "' object has no attribute 'get'"))
      else
        var data := if "data" in v.fields then v.fields["data"] else JArr([]);
        match Len(data)
        case Err(e) => Err(Errors.FromPy(e))
        case Ok(_) => Ok(v.fields)
  }

  /** Loading every path in order; the first failure propagates. */
  function LoadAll<P>(load: P -> Result<map<string, Json>, Errors.Error>, paths: seq<P>)
    : (r: Result<seq<map<string, Json>>, Errors.Error>)
    decreases |paths|
  {
    if |paths| == 0 then Ok([])
    else
      var first :- load(paths[0]);
      var rest :- LoadAll(load, paths[1..]);
      Ok([first] + rest)
  }

  /** Every file loads, and the payloads line up with the paths; or the
      first file that does not load supplies the exception. */
  lemma {:induction false} LoadAllSpec<P>(load: P -> Result<map<string, Json>, Errors.Error>, paths: seq<P>)
    ensures LoadAll(load, paths).Ok? <==> forall i | 0 <= i < |paths| :: load(paths[i]).Ok?
    ensures LoadAll(load, paths).Ok? ==>
              |LoadAll(load, paths).value| == |paths|
              && forall i | 0 <= i < |paths| :: LoadAll(load, paths).value[i] == load(paths[i]).value
    ensures LoadAll(load, paths).Err? ==>
              exists f | 0 <= f < |paths| ::
                && load(paths[f]).Err? && LoadAll(load, paths).error == load(paths[f]).error
                && forall i | 0 <= i < f :: load(paths[i]).Ok?
    decreases |paths|
  {
    if |paths| > 0 && load(paths[0]).Ok? {
      var rest := paths[1..];
      LoadAllSpec(load, rest);
      assert forall i | 1 <= i < |paths| :: paths[i] == rest[i - 1];
      if LoadAll(load, rest).Err? {
        var f :| 0 <= f < |rest| && load(rest[f]).Err? && LoadAll(load, rest).error == load(rest[f]).error
                 && forall i | 0 <= i < f :: load(rest[i]).Ok?;
        assert load(paths[f + 1]).Err?;
      }
    }
  }

  /** The aggregation loop's state: the summed counters and the numbers of
      successful and failed payloads. */
  datatype Tally = Tally(counts: Aggregate.Counts, successful: nat, failed: nat)

  /** The aggregation loop from `acc` over the remaining results. */
  function TallyFrom(acc: Tally, results: seq<Result<Json, Errors.Error>>): (r: Result<Tally, PyError>)
    ensures r.Ok? ==> r.value.successful + r.value.failed == acc.successful + acc.failed + |results|
    decreases |results|
  {
    if |results| == 0 then Ok(acc)
    else
      match results[0]
      case Err(_) => TallyFrom(Tally(acc.counts, acc.successful, acc.failed + 1), results[1..])
      case Ok(v) =>
        var counts :- Aggregate.AddResult(acc.counts, v);
        TallyFrom(Tally(counts, acc.successful + 1, acc.failed), results[1..])
  }

  /** The responses among the results, in order. */
  function Responses(results: seq<Result<Json, Errors.Error>>): (r: seq<Json>)
    ensures |r| <= |results|
    decreases |results|
  {
    if |results| == 0 then []
    else (if results[0].Ok? then [results[0].value] else []) + Responses(results[1..])
  }

  /** Every response is mergeable. */
  predicate AllMergeable(results: seq<Result<Json, Errors.Error>>)
    decreases |results|
  {
    |results| > 0 ==> (results[0].Ok? ==> Aggregate.Mergeable(results[0].value)) && AllMergeable(results[1..])
  }

  lemma {:induction false} ResponsesMergeable(results: seq<Result<Json, Errors.Error>>)
    requires AllMergeable(results)
    ensures forall i | 0 <= i < |Responses(results)| :: Aggregate.Mergeable(Responses(results)[i])
    decreases |results|
  {
    if |results| > 0 {
      ResponsesMergeable(results[1..]);
      var head := if results[0].Ok? then [results[0].value] else [];
      forall i | 0 <= i < |Responses(results)|
        ensures Aggregate.Mergeable(Responses(results)[i])
      {
        if i >= |head| {
          assert Responses(results)[i] == Responses(results[1..])[i - |head|];
        }
      }
    }
  }

  /** The totals over a list of responses that starts with `v`. */
  lemma TotalCons(v: Json, rest: seq<Json>)
    requires Aggregate.Mergeable(v)
    requires forall i | 0 <= i < |rest| :: Aggregate.Mergeable(rest[i])
    ensures forall i | 0 <= i < |[v] + rest| :: Aggregate.Mergeable(([v] + rest)[i])
    ensures Aggregate.Total([v] + rest) == Aggregate.Plus(Aggregate.Contribution(v), Aggregate.Total(rest))
  {
    assert ([v] + rest)[1..] == rest;
  }

  /** One turn of the aggregation loop. */
  lemma TallyUnfold(acc: Tally, results: seq<Result<Json, Errors.Error>>)
    requires |results| > 0
    ensures results[0].Err? ==>
              && TallyFrom(acc, results) == TallyFrom(Tally(acc.counts, acc.successful, acc.failed + 1), results[1..])
              && Responses(results) == Responses(results[1..])
    ensures results[0].Ok? && Aggregate.Mergeable(results[0].value) ==>
              && TallyFrom(acc, results)
                 == TallyFrom(Tally(Aggregate.Plus(acc.counts, Aggregate.Contribution(results[0].value)),
                                    acc.successful + 1, acc.failed), results[1..])
              && Responses(results) == [results[0].value] + Responses(results[1..])
  {
    if results[0].Ok? && Aggregate.Mergeable(results[0].value) {
      Aggregate.AddResultSpec(acc.counts, results[0].value);
    }
  }

  /** The sum of the responses' contributions, computed over the results. */
  function Contributions(results: seq<Result<Json, Errors.Error>>): Aggregate.Counts
    requires AllMergeable(results)
    decreases |results|
  {
    if |results| == 0 then Aggregate.Zero
    else if results[0].Err? then Contributions(results[1..])
    else Aggregate.Plus(Aggregate.Contribution(results[0].value), Contributions(results[1..]))
  }

  /** ... which is the total over the responses alone. */
  lemma {:induction false} ContributionsAreTotal(results: seq<Result<Json, Errors.Error>>)
    requires AllMergeable(results)
    ensures forall i | 0 <= i < |Responses(results)| :: Aggregate.Mergeable(Responses(results)[i])
    ensures Contributions(results) == Aggregate.Total(Responses(results))
    decreases |results|
  {
    ResponsesMergeable(results);
    if |results| > 0 {
      var rest := results[1..];
      ContributionsAreTotal(rest);
      if results[0].Ok? {
        assert Responses(results) == [results[0].value] + Responses(rest);
        TotalCons(results[0].value, Responses(rest));
      } else {
        assert Responses(results) == Responses(rest);
      }
    }
  }

  /** Exceptions count as failures and add nothing; each response counts as
      a success and adds its summary. */
  lemma {:induction false} TallyIsContributions(acc: Tally, results: seq<Result<Json, Errors.Error>>)
    requires AllMergeable(results)
    ensures TallyFrom(acc, results)
            == Ok(Tally(Aggregate.Plus(acc.counts, Contributions(results)),
                        acc.successful + |Responses(results)|,
                        acc.failed + |results| - |Responses(results)|))
    decreases |results|
  {
    if |results| > 0 {
      var rest := results[1..];
      TallyUnfold(acc, results);
      if results[0].Err? {
        TallyIsContributions(Tally(acc.counts, acc.successful, acc.failed + 1), rest);
      } else {
        var v := results[0].value;
        TallyIsContributions(Tally(Aggregate.Plus(acc.counts, Aggregate.Contribution(v)), acc.successful + 1, acc.failed), rest);
      }
    }
  }

  /** How a `process_*` call ended, and how many payloads it handed to the
      client. The returned dict is `Aggregate.SummaryJson(tally.counts)`. */
  datatype Processed = Processed(result: Result<Tally, Errors.Error>, sent: nat)

  const NothingToDo := Processed(Ok(Tally(Aggregate.Zero, 0, 0)), 0)

  /** The aggregation loop over the results `batch_send` returned. */
  function Summarise(results: seq<Result<Json, Errors.Error>>): (r: Result<Tally, Errors.Error>)
    ensures r.Ok? ==> r.value.successful + r.value.failed == |results|
    ensures r.Err? ==> r.error.Foreign?
  {
    match TallyFrom(Tally(Aggregate.Zero, 0, 0), results)
    case Err(e) => Err(Errors.FromPy(e))
    case Ok(t) => Ok(t)
  }

  /** With every response mergeable, the summary adds up the responses'
      contributions (which `ContributionsAreTotal` shows to be the exact
      sums over the responses), the successes are the responses and the
      failures the exceptions. */
  lemma SummariseTotals(results: seq<Result<Json, Errors.Error>>)
    requires AllMergeable(results)
    ensures Summarise(results)
            == Ok(Tally(Contributions(results), |Responses(results)|, |results| - |Responses(results)|))
  {
    var c, n := Contributions(results), |Responses(results)|;
    TallyFromEmpty(Tally(Aggregate.Zero, 0, 0), results);
    SummariseIs(results, Tally(c, n, |results| - n));
  }

  /** From a start value with nothing counted yet, the loop ends with the
      contributions, the responses and the exceptions. */
  lemma TallyFromEmpty(acc: Tally, results: seq<Result<Json, Errors.Error>>)
    requires AllMergeable(results)
    requires acc.counts == Aggregate.Zero && acc.successful == 0 && acc.failed == 0
    ensures TallyFrom(acc, results).Ok?
    ensures TallyFrom(acc, results).value
            == Tally(Contributions(results), |Responses(results)|, |results| - |Responses(results)|)
  {
    TallyEmptyCounts(acc, results);
    TallyEmptyOutcomes(acc, results);
  }

  lemma TallyEmptyCounts(acc: Tally, results: seq<Result<Json, Errors.Error>>)
    requires AllMergeable(results)
    requires acc.counts == Aggregate.Zero
    ensures TallyFrom(acc, results).Ok? && TallyFrom(acc, results).value.counts == Contributions(results)
  {
    TallyIsContributions(acc, results);
    Aggregate.PlusZero(Contributions(results));
  }

  lemma TallyEmptyOutcomes(acc: Tally, results: seq<Result<Json, Errors.Error>>)
    requires AllMergeable(results)
    requires acc.successful == 0 && acc.failed == 0
    ensures TallyFrom(acc, results).Ok? && TallyFrom(acc, results).value.successful == |Responses(results)|
    ensures TallyFrom(acc, results).value.failed == |results| - |Responses(results)|
  {
    TallyIsContributions(acc, results);
  }

  lemma SummariseIs(results: seq<Result<Json, Errors.Error>>, t: Tally)
    requires TallyFrom(Tally(Aggregate.Zero, 0, 0), results).Ok?
    requires TallyFrom(Tally(Aggregate.Zero, 0, 0), results).value == t
    ensures Summarise(results) == Ok(t)
  {
  }

  /** Sending loaded payloads with return_exceptions and tallying the
      results. */
  function SendAll(p: Processor, payloads: seq<map<string, Json>>, debug: bool,
                   oracles: nat -> (nat -> Retry.Attempt)): (r: Processed)
    requires |payloads| > 0
    ensures r == Processed(Summarise(AsyncClient.Outcomes(p.client, payloads, debug, true, oracles)), |payloads|)
  {
    var results := AsyncClient.BatchSend(p.client, payloads, debug, true, true, oracles).value;
    Processed(Summarise(results), |payloads|)
  }

  /** `process_files(file_paths, debug)` */
  function ProcessFiles(p: Processor, fs: FileSystem, paths: seq<string>, debug: bool,
                        oracles: nat -> (nat -> Retry.Attempt)): (r: Processed)
    ensures |paths| == 0 ==> r == NothingToDo
    ensures LoadAll(path => LoadJson(fs, path), paths).Err? ==>
              r == Processed(Err(LoadAll(path => LoadJson(fs, path), paths).error), 0)
    ensures r.sent > 0 ==> r.sent == |paths|
    ensures r.result.Ok? ==> r.result.value.successful + r.result.value.failed == |paths|
  {
    if |paths| == 0 then NothingToDo
    else
      match LoadAll(path => LoadJson(fs, path), paths)
      case Err(e) => Processed(Err(e), 0)
      case Ok(payloads) =>
        LoadAllSpec(path => LoadJson(fs, path), paths);
        SendAll(p, payloads, debug, oracles)
  }

  /** A file that does not load stops the run before anything is sent, with
      the exception of the first such file. */
  lemma BadFileNothingSent(p: Processor, fs: FileSystem, paths: seq<string>, debug: bool,
                           oracles: nat -> (nat -> Retry.Attempt), i: nat)
    requires i < |paths| && !(fs.json(paths[i]).Parsed? && fs.json(paths[i]).value.JObj?)
    ensures ProcessFiles(p, fs, paths, debug, oracles).sent == 0
    ensures ProcessFiles(p, fs, paths, debug, oracles).result.Err?
    ensures exists f | 0 <= f <= i ::
              && LoadJson(fs, paths[f]).Err?
              && ProcessFiles(p, fs, paths, debug, oracles).result.error == LoadJson(fs, paths[f]).error
  {
    var load := path => LoadJson(fs, path);
    LoadAllSpec(load, paths);
    assert load(paths[i]).Err?;
    var f :| 0 <= f < |paths| && load(paths[f]).Err? && LoadAll(load, paths).error == load(paths[f]).error
             && forall j | 0 <= j < f :: load(paths[j]).Ok?;
    assert f <= i;
  }

  /** When every file loads, one payload per file is sent, file i's against
      `oracles(i)`, and the run ends with the aggregation of the results. */
  lemma ProcessFilesSends(p: Processor, fs: FileSystem, paths: seq<string>, debug: bool,
                          oracles: nat -> (nat -> Retry.Attempt))
    requires |paths| > 0
    requires forall i | 0 <= i < |paths| :: LoadJson(fs, paths[i]).Ok?
    ensures LoadAll(path => LoadJson(fs, path), paths).Ok?
    ensures var payloads := LoadAll(path => LoadJson(fs, path), paths).value;
            && |payloads| == |paths|
            && (forall i | 0 <= i < |paths| :: payloads[i] == LoadJson(fs, paths[i]).value)
            && ProcessFiles(p, fs, paths, debug, oracles)
               == Processed(Summarise(AsyncClient.Outcomes(p.client, payloads, debug, true, oracles)), |paths|)
  {
    LoadAllSpec(path => LoadJson(fs, path), paths);
  }

  /** A failed conversion is a CSVConversionError of the converter. */
  lemma CsvLoadError(fs: FileSystem, paths: seq<string>)
    ensures LoadAll(path => CsvConverter.CsvToPayload(fs.csv(path)), paths).Err? ==>
              LoadAll(path => CsvConverter.CsvToPayload(fs.csv(path)), paths).error.ConverterError?
  {
    var load := path => CsvConverter.CsvToPayload(fs.csv(path));
    LoadAllSpec(load, paths);
    if LoadAll(load, paths).Err? {
      var f :| 0 <= f < |paths| && load(paths[f]).Err? && LoadAll(load, paths).error == load(paths[f]).error;
      assert CsvConverter.CsvToPayload(fs.csv(paths[f])).Err?;
    }
  }

  /** `process_csv_files(csv_paths, debug)`: every CSV is converted before
      anything is sent, and a conversion error propagates. */
  function ProcessCsvFiles(p: Processor, fs: FileSystem, paths: seq<string>, debug: bool,
                           oracles: nat -> (nat -> Retry.Attempt)): (r: Processed)
    ensures |paths| == 0 ==> r == NothingToDo
    ensures LoadAll(path => CsvConverter.CsvToPayload(fs.csv(path)), paths).Err? ==>
              r.sent == 0 && r.result.Err? && r.result.error.ConverterError?
    ensures r.sent > 0 ==> r.sent == |paths|
    ensures r.result.Ok? ==> r.result.value.successful + r.result.value.failed == |paths|
  {
    if |paths| == 0 then NothingToDo
    else
      var load := path => CsvConverter.CsvToPayload(fs.csv(path));
      CsvLoadError(fs, paths);
      LoadAllSpec(load, paths);
      match LoadAll(load, paths)
      case Err(e) => Processed(Err(e), 0)
      case Ok(payloads) => SendAll(p, payloads, debug, oracles)
  }

  /** Converted CSV payloads are valid, so none of them fails validation
      inside `send_data`. */
  lemma CsvPayloadsValid(fs: FileSystem, paths: seq<string>)
    requires LoadAll(path => CsvConverter.CsvToPayload(fs.csv(path)), paths).Ok?
    ensures var payloads := LoadAll(path => CsvConverter.CsvToPayload(fs.csv(path)), paths).value;
            forall i | 0 <= i < |payloads| :: AsyncClient.Prepare(payloads[i], false).Ok?
  {
    var load := path => CsvConverter.CsvToPayload(fs.csv(path));
    LoadAllSpec(load, paths);
  }

  /** The glob pattern, under the `**` wildcard directory when recursive. */
  function GlobPattern(pattern: string, recursive: bool): (g: string)
    ensures recursive ==> g == "**/" + pattern
    ensures !recursive ==> g == pattern
  {
    if recursive then "**/" + pattern else pattern
  }

  /** `process_directory(directory, pattern, debug, recursive)` */
  function ProcessDirectory(p: Processor, fs: FileSystem, directory: string, pattern: string, debug: bool,
                            recursive: bool, oracles: nat -> (nat -> Retry.Attempt)): (r: Processed)
    ensures !fs.pathExists(directory) ==>
              r == Processed(Err(Errors.Foreign("FileNotFoundError", "Directory not found: " + directory)), 0)
    ensures fs.pathExists(directory) && |fs.glob(directory, GlobPattern(pattern, recursive))| == 0 ==> r == NothingToDo
    ensures fs.pathExists(directory) ==> r == ProcessFiles(p, fs, fs.glob(directory, GlobPattern(pattern, recursive)), debug, oracles)
  {
    if !fs.pathExists(directory) then
      Processed(Err(Errors.Foreign("FileNotFoundError", "Directory not found: " + directory)), 0)
    else
      var paths := fs.glob(directory, GlobPattern(pattern, recursive));
      if |paths| == 0 then NothingToDo else ProcessFiles(p, fs, paths, debug, oracles)
  }

  /** `process_large_payload(payload, debug)`: `split_and_send` with the
      processor's batch size and retry on. */
  function ProcessLargePayload(p: Processor, payload: map<string, Json>, debug: bool,
                               oracles: nat -> (nat -> Retry.Attempt)): (r: Result<map<string, Json>, Errors.Error>)
    ensures r.Ok? ==> r.value.Keys == {"summary"}
  {
    AsyncClient.SplitAndSend(p.client, payload, p.batchSize, debug, true, oracles)
  }
}
