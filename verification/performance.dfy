/** `PerformanceMetrics` and `process_in_batches` of performance.py. Clock
    readings are left out: `start()` only records that a start time exists,
    and the durations handed to `record_api_call` are exact reals. */
module Performance {
  import opened Wrappers
  import opened Json
  import Errors
  import Batching

  /** The counters of a `PerformanceMetrics`. `minTime` is None while it
      still holds `float('inf')`. */
  datatype Metrics = Metrics(
    apiCalls: nat,
    successCalls: nat,
    failedCalls: nat,
    minTime: Option<real>,
    maxTime: real,
    retries: nat,
    entitiesProcessed: int,
    batchSizes: seq<int>,
    optimalBatchSize: int,
    errorsByType: map<string, nat>,
    started: bool)

  /** `PerformanceMetrics()` */
  const Fresh := Metrics(0, 0, 0, None, 0.0, 0, 0, [], 0, map[], false)

  /** What every reachable state satisfies: each call is a success or a
      failure, a minimum exists exactly when a call succeeded and never
      exceeds the maximum, recorded batch sizes are positive, and a type in
      the histogram has been seen at least once. */
  predicate Valid(m: Metrics) {
    && m.apiCalls == m.successCalls + m.failedCalls
    && (m.minTime.Some? <==> m.successCalls > 0)
    && (m.minTime.Some? ==> m.minTime.value <= m.maxTime)
    && (forall i | 0 <= i < |m.batchSizes| :: m.batchSizes[i] > 0)
    && (forall t | t in m.errorsByType :: m.errorsByType[t] >= 1)
  }

  lemma FreshValid()
    ensures Valid(Fresh)
  {
  }

  function MinReal(a: real, b: real): real {
    if a <= b then a else b
  }

  function MaxReal(a: real, b: real): real {
    if a >= b then a else b
  }

  /** `record_api_call(duration, success, batch_size)` */
  function RecordApiCall(m: Metrics, duration: real, success: bool, batchSize: Option<int>): (r: Metrics)
    ensures r.apiCalls == m.apiCalls + 1
    ensures success ==> r.successCalls == m.successCalls + 1 && r.failedCalls == m.failedCalls
    ensures !success ==> r.failedCalls == m.failedCalls + 1 && r.successCalls == m.successCalls
    ensures success ==> r.minTime.Some? && r.minTime.value <= duration && r.maxTime >= duration
                        && (m.minTime.Some? ==> r.minTime.value <= m.minTime.value) && r.maxTime >= m.maxTime
                        && (r.minTime.value == duration || r.minTime == m.minTime)
                        && (r.maxTime == duration || r.maxTime == m.maxTime)
    ensures !success ==> r.minTime == m.minTime && r.maxTime == m.maxTime
    ensures r.batchSizes == (if batchSize.Some? && batchSize.value > 0 then m.batchSizes + [batchSize.value]
                             else m.batchSizes)
    ensures r.retries == m.retries && r.errorsByType == m.errorsByType && r.entitiesProcessed == m.entitiesProcessed
    ensures Valid(m) ==> Valid(r)
  {
    var m1 := m.(apiCalls := m.apiCalls + 1);
    var m2 :=
      if success then
        m1.(successCalls := m1.successCalls + 1,
            minTime := Some(if m1.minTime.Some? then MinReal(m1.minTime.value, duration) else duration),
            maxTime := MaxReal(m1.maxTime, duration))
      else m1.(failedCalls := m1.failedCalls + 1);
    if batchSize.Some? && batchSize.value > 0 then m2.(batchSizes := m2.batchSizes + [batchSize.value]) else m2
  }

  /** `record_retry()` */
  function RecordRetry(m: Metrics): (r: Metrics)
    ensures r.retries == m.retries + 1 && r.(retries := m.retries) == m
  {
    m.(retries := m.retries + 1)
  }

  /** `record_entities(count)` */
  function RecordEntities(m: Metrics, count: int): (r: Metrics)
    ensures r.entitiesProcessed == m.entitiesProcessed + count && r.(entitiesProcessed := m.entitiesProcessed) == m
  {
    m.(entitiesProcessed := m.entitiesProcessed + count)
  }

  /** `record_error(error_type)` */
  function RecordError(m: Metrics, errorType: string): (r: Metrics)
    ensures errorType in r.errorsByType
    ensures errorType !in m.errorsByType ==> r.errorsByType[errorType] == 1
    ensures errorType in m.errorsByType ==> r.errorsByType[errorType] == m.errorsByType[errorType] + 1
    ensures r.errorsByType.Keys == m.errorsByType.Keys + {errorType}
    ensures forall t | t in m.errorsByType && t != errorType :: r.errorsByType[t] == m.errorsByType[t]
    ensures r.(errorsByType := m.errorsByType) == m
    ensures Valid(m) ==> Valid(r)
  {
    var before := if errorType in m.errorsByType then m.errorsByType[errorType] else 0;
    m.(errorsByType := m.errorsByType[errorType := before + 1])
  }

  /** How often `t` occurs in `ts`. */
  function Occurrences(ts: seq<string>, t: string): nat
    decreases |ts|
  {
    if |ts| == 0 then 0 else (if ts[|ts| - 1] == t then 1 else 0) + Occurrences(ts[..|ts| - 1], t)
  }

  /** `record_error` for each type in turn. */
  function RecordErrors(m: Metrics, ts: seq<string>): Metrics
    decreases |ts|
  {
    if |ts| == 0 then m else RecordError(RecordErrors(m, ts[..|ts| - 1]), ts[|ts| - 1])
  }

  /** From a fresh histogram, the recorded types are exactly the types seen,
      each with the number of times it was seen. */
  lemma {:induction false} HistogramCounts(ts: seq<string>)
    ensures RecordErrors(Fresh, ts).errorsByType.Keys == set t | t in ts
    ensures forall t | t in RecordErrors(Fresh, ts).errorsByType ::
              RecordErrors(Fresh, ts).errorsByType[t] == Occurrences(ts, t)
    decreases |ts|
  {
    if |ts| > 0 {
      var init := ts[..|ts| - 1];
      HistogramCounts(init);
      var before := RecordErrors(Fresh, init).errorsByType;
      var after := RecordErrors(Fresh, ts).errorsByType;
      assert ts == init + [ts[|ts| - 1]];
      forall t | t in after
        ensures after[t] == Occurrences(ts, t)
      {
        if t !in before {
          assert Occurrences(init, t) == 0 by { OccurrencesAbsent(init, t); }
        }
      }
    }
  }

  lemma {:induction false} OccurrencesAbsent(ts: seq<string>, t: string)
    requires forall i | 0 <= i < |ts| :: ts[i] != t
    ensures Occurrences(ts, t) == 0
    decreases |ts|
  {
    if |ts| > 0 {
      OccurrencesAbsent(ts[..|ts| - 1], t);
    }
  }

  /** `start()`: only the existence of a start time is kept. */
  function Start(m: Metrics): (r: Metrics)
    ensures r.started && r.(started := m.started) == m
  {
    m.(started := true)
  }

  function Sum(xs: seq<int>): int
    decreases |xs|
  {
    if |xs| == 0 then 0 else Sum(xs[..|xs| - 1]) + xs[|xs| - 1]
  }

  /** `end()`: once started, the optimal batch size becomes
      `int(sum(sizes) / len(sizes))` when sizes were recorded; sizes are
      positive, so truncation is the floor. */
  function End(m: Metrics): (r: Metrics)
    ensures !m.started || |m.batchSizes| == 0 ==> r == m
    ensures m.started && |m.batchSizes| > 0 ==>
              r == m.(optimalBatchSize := Sum(m.batchSizes) / |m.batchSizes|)
  {
    if m.started && |m.batchSizes| > 0 then m.(optimalBatchSize := Sum(m.batchSizes) / |m.batchSizes|) else m
  }

  lemma {:induction false} SumPositive(xs: seq<int>)
    requires forall i | 0 <= i < |xs| :: xs[i] > 0
    ensures Sum(xs) >= |xs|
    decreases |xs|
  {
    if |xs| > 0 {
      SumPositive(xs[..|xs| - 1]);
    }
  }

  lemma {:induction false} SumBounded(xs: seq<int>, hi: int)
    requires forall i | 0 <= i < |xs| :: xs[i] <= hi
    ensures Sum(xs) <= |xs| * hi
    decreases |xs|
  {
    if |xs| > 0 {
      SumBounded(xs[..|xs| - 1], hi);
    }
  }

  /** The optimal batch size is the floor of the mean: at least 1, and at
      most the largest recorded size. */
  lemma OptimalWithinRange(m: Metrics, hi: int)
    requires Valid(m) && m.started && |m.batchSizes| > 0
    requires forall i | 0 <= i < |m.batchSizes| :: m.batchSizes[i] <= hi
    ensures 1 <= End(m).optimalBatchSize <= hi
    ensures End(m).optimalBatchSize * |m.batchSizes| <= Sum(m.batchSizes) < (End(m).optimalBatchSize + 1) * |m.batchSizes|
  {
    var n := |m.batchSizes|;
    var s := Sum(m.batchSizes);
    SumPositive(m.batchSizes);
    SumBounded(m.batchSizes, hi);
    DivAtLeastOne(s, n);
    DivAtMost(s, n, hi);
  }

  lemma DivAtLeastOne(s: int, n: int)
    requires 0 < n <= s
    ensures s / n >= 1
  {
  }

  lemma DivAtMost(s: int, n: int, hi: int)
    requires 0 < n && s <= n * hi
    ensures s / n <= hi
  {
  }

  /** The reported summary, without the wall-clock fields. */
  datatype Summary = Summary(total: nat, success: nat, failed: nat, successRate: real,
                             minCallTime: real, maxCallTime: real, retries: nat, entitiesProcessed: int,
                             batchCount: nat, optimalBatchSize: int, errors: map<string, nat>)

  /** `get_summary()` */
  function GetSummary(m: Metrics): (s: Summary)
    ensures m.apiCalls == 0 ==> s.successRate == 0.0
    ensures m.apiCalls > 0 ==> s.successRate * (m.apiCalls as real) == (m.successCalls as real) * 100.0
    ensures m.minTime.None? ==> s.minCallTime == 0.0
    ensures m.minTime.Some? ==> s.minCallTime == m.minTime.value
    ensures s.total == m.apiCalls && s.batchCount == |m.batchSizes| && s.errors == m.errorsByType
  {
    Summary(m.apiCalls, m.successCalls, m.failedCalls,
            if m.apiCalls > 0 then (m.successCalls as real) / (m.apiCalls as real) * 100.0 else 0.0,
            if m.minTime.Some? then m.minTime.value else 0.0, m.maxTime, m.retries, m.entitiesProcessed,
            |m.batchSizes|, m.optimalBatchSize, m.errorsByType)
  }

  /** A valid state reports a success rate between 0 and 100. */
  lemma SuccessRateBounded(m: Metrics)
    requires Valid(m)
    ensures 0.0 <= GetSummary(m).successRate <= 100.0
  {
    if m.apiCalls > 0 {
      assert (m.successCalls as real) / (m.apiCalls as real) <= 1.0;
    }
  }

  // ------------------------------------------------------ process_in_batches

  /** Running `process_batch_func` over the batches in order and
      concatenating the results; an exception stops the loop. */
  function RunBatches<T, R>(batches: seq<seq<T>>, f: seq<T> -> Result<seq<R>, Errors.Error>)
    : (r: Result<seq<R>, Errors.Error>)
    decreases |batches|
  {
    if |batches| == 0 then Ok([])
    else
      var first :- f(batches[0]);
      var rest :- RunBatches(batches[1..], f);
      Ok(first + rest)
  }

  /** `process_in_batches(items, batch_size, process_batch_func)` */
  function ProcessInBatches<T, R>(items: seq<T>, batchSize: int, f: seq<T> -> Result<seq<R>, Errors.Error>)
    : (r: Result<seq<R>, Errors.Error>)
    ensures |items| == 0 ==> r == Ok([])
    ensures |items| > 0 && batchSize == 0 ==> r == Err(Errors.Foreign("ValueError", "range() arg 3 must not be zero"))
    ensures |items| > 0 && batchSize < 0 ==> r == Ok([])
  {
    if |items| == 0 then Ok([])
    else
      match Batching.RangeChunks(items, batchSize)
      case Err(e) => Err(Errors.FromPy(e))
      case Ok(batches) => RunBatches(batches, f)
  }

  /** Apply g to every element. */
  function MapSeq<T, R>(g: T -> R, xs: seq<T>): (r: seq<R>)
    ensures |r| == |xs|
    ensures forall i | 0 <= i < |xs| :: r[i] == g(xs[i])
  {
    seq(|xs|, i requires 0 <= i < |xs| => g(xs[i]))
  }

  lemma MapAppend<T, R>(g: T -> R, a: seq<T>, b: seq<T>)
    ensures MapSeq(g, a + b) == MapSeq(g, a) + MapSeq(g, b)
  {
  }

  /** With an element-wise batch function, running the batches gives g of
      every element of their concatenation. */
  lemma {:induction false} RunBatchesMap<T, R>(batches: seq<seq<T>>, g: T -> R)
    ensures RunBatches(batches, b => Ok(MapSeq(g, b))) == Ok(MapSeq(g, Batching.Flatten(batches)))
    decreases |batches|
  {
    if |batches| > 0 {
      RunBatchesMap(batches[1..], g);
      MapAppend(g, batches[0], Batching.Flatten(batches[1..]));
    }
  }

  /** For a batch function that maps each item, processing in batches of a
      positive size is the same as mapping the items: order is kept and
      nothing is lost or repeated. */
  lemma ProcessInBatchesIsMap<T, R>(items: seq<T>, batchSize: int, g: T -> R)
    requires batchSize > 0
    ensures ProcessInBatches(items, batchSize, b => Ok(MapSeq(g, b))) == Ok(MapSeq(g, items))
  {
    if |items| > 0 {
      var batches := Batching.RangeChunks(items, batchSize).value;
      RunBatchesMap(batches, g);
    }
  }

  /** The first batch whose call raises ends the run with that exception. */
  lemma {:induction false} RunBatchesErr<T, R>(batches: seq<seq<T>>, f: seq<T> -> Result<seq<R>, Errors.Error>)
    ensures RunBatches(batches, f).Ok? <==> forall i | 0 <= i < |batches| :: f(batches[i]).Ok?
    ensures RunBatches(batches, f).Err? ==>
              exists k | 0 <= k < |batches| :: f(batches[k]).Err? && RunBatches(batches, f).error == f(batches[k]).error
                                             && forall i | 0 <= i < k :: f(batches[i]).Ok?
    decreases |batches|
  {
    if |batches| > 0 && f(batches[0]).Ok? {
      var rest := batches[1..];
      RunBatchesErr(rest, f);
      assert forall i | 1 <= i < |batches| :: batches[i] == rest[i - 1];
      if RunBatches(rest, f).Err? {
        var k :| 0 <= k < |rest| && f(rest[k]).Err? && RunBatches(rest, f).error == f(rest[k]).error
                 && forall i | 0 <= i < k :: f(rest[i]).Ok?;
        assert f(batches[k + 1]).Err?;
      }
    }
  }
}
