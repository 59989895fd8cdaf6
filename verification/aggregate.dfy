/** The summary merge that `AsyncApiClient.split_and_send` and the
    `BatchProcessor.process_*` methods run over the responses:
    `merged["summary"][k] += result["summary"].get(k, 0)` for the three
    counters, skipping a response without a "summary". */
module Aggregate {
  import opened Wrappers
  import opened Json

  /** The three counters of a `summary`. */
  datatype Counts = Counts(submitted: int, processed: int, dropped: int)

  const Zero := Counts(0, 0, 0)

  function Plus(a: Counts, b: Counts): Counts {
    Counts(a.submitted + b.submitted, a.processed + b.processed, a.dropped + b.dropped)
  }

  lemma PlusZero(c: Counts)
    ensures Plus(Zero, c) == c
  {
  }

  /** `{"summary": {"submitted": .., "processed": .., "dropped": ..}}` */
  function SummaryJson(c: Counts): (r: map<string, Json>)
    ensures r.Keys == {"summary"} && r["summary"].JObj?
    ensures r["summary"].fields.Keys == {"submitted", "processed", "dropped"}
  {
    map["summary" := JObj(map["submitted" := JInt(c.submitted), "processed" := JInt(c.processed),
                              "dropped" := JInt(c.dropped)])]
  }

  /** `n += v` for an int n: ints and bools add, anything else is a
      TypeError. */
  function AddTo(n: int, v: Json): (r: Result<int, PyError>)
    ensures r.Ok? <==> AsInt(v).Some?
    ensures r.Ok? ==> r.value == n + AsInt(v).value
  {
    match AsInt(v)
    case Some(i) => Ok(n + i)
    case None => Err(PyError("TypeError", "unsupported operand type(s) for +=: 'int' and '" + TypeName(v) + "'"))
  }

  /** `summary.get(key, 0)` on a summary known to be a dict. */
  function Field(fields: map<string, Json>, key: string): Json {
    if key in fields then fields[key] else JInt(0)
  }

  /** One step of the merge loop. */
  function AddResult(acc: Counts, result: Json): (r: Result<Counts, PyError>)
  {
    var has :- Contains(result, "summary");
    if !has then Ok(acc)
    else
      var summary :- Subscript(result, "summary");
      if !summary.JObj? then
        Err(PyError("AttributeError", "'" + TypeName(summary) + "' object has no attribute 'get'"))
      else
        var s :- AddTo(acc.submitted, Field(summary.fields, "submitted"));
        var p :- AddTo(acc.processed, Field(summary.fields, "processed"));
        var d :- AddTo(acc.dropped, Field(summary.fields, "dropped"));
        Ok(Counts(s, p, d))
  }

  /** A response the merge accepts: a dict whose "summary", when present, is
      a dict whose counters, when present, are ints (or bools). */
  predicate Mergeable(result: Json) {
    && result.JObj?
    && ("summary" in result.fields ==>
          && result.fields["summary"].JObj?
          && AsInt(Field(result.fields["summary"].fields, "submitted")).Some?
          && AsInt(Field(result.fields["summary"].fields, "processed")).Some?
          && AsInt(Field(result.fields["summary"].fields, "dropped")).Some?)
  }

  /** What a mergeable response contributes: its counters, 0 for a missing
      one, and nothing at all without a "summary". */
  function Contribution(result: Json): Counts
    requires Mergeable(result)
  {
    if "summary" !in result.fields then Zero
    else
      var f := result.fields["summary"].fields;
      Counts(AsInt(Field(f, "submitted")).value, AsInt(Field(f, "processed")).value,
             AsInt(Field(f, "dropped")).value)
  }

  /** On a dict, one step adds exactly the response's contribution, and
      fails exactly when the response is not mergeable. */
  lemma AddResultSpec(acc: Counts, result: Json)
    requires result.JObj?
    ensures AddResult(acc, result).Ok? <==> Mergeable(result)
    ensures Mergeable(result) ==> AddResult(acc, result) == Ok(Plus(acc, Contribution(result)))
  {
  }

  /** The merge loop over `results` from the start value `acc`. */
  function Merge(acc: Counts, results: seq<Json>): (r: Result<Counts, PyError>)
    decreases |results|
  {
    if |results| == 0 then Ok(acc)
    else
      var next :- AddResult(acc, results[0]);
      Merge(next, results[1..])
  }

  /** Independent definition of the totals: the sum of the contributions. */
  function Total(results: seq<Json>): Counts
    requires forall i | 0 <= i < |results| :: Mergeable(results[i])
    decreases |results|
  {
    if |results| == 0 then Zero else Plus(Contribution(results[0]), Total(results[1..]))
  }

  /** The merged summary is the exact sum of the responses' counters. */
  lemma {:induction false} MergeIsTotal(acc: Counts, results: seq<Json>)
    requires forall i | 0 <= i < |results| :: Mergeable(results[i])
    ensures Merge(acc, results) == Ok(Plus(acc, Total(results)))
    decreases |results|
  {
    if |results| > 0 {
      AddResultSpec(acc, results[0]);
      MergeIsTotal(Plus(acc, Contribution(results[0])), results[1..]);
    }
  }

  /** Responses of dicts: the merge fails exactly when one of them is not
      mergeable. */
  lemma {:induction false} MergeFails(acc: Counts, results: seq<Json>)
    requires forall i | 0 <= i < |results| :: results[i].JObj?
    ensures Merge(acc, results).Ok? <==> forall i | 0 <= i < |results| :: Mergeable(results[i])
    decreases |results|
  {
    if |results| > 0 {
      AddResultSpec(acc, results[0]);
      if Mergeable(results[0]) {
        MergeFails(Plus(acc, Contribution(results[0])), results[1..]);
        assert forall i | 1 <= i < |results| :: results[1..][i - 1] == results[i];
      }
    }
  }

  /** Responses without a "summary" add nothing. */
  lemma {:induction false} SummaryLessAddsNothing(acc: Counts, results: seq<Json>)
    requires forall i | 0 <= i < |results| :: results[i].JObj? && "summary" !in results[i].fields
    ensures Merge(acc, results) == Ok(acc)
    decreases |results|
  {
    if |results| > 0 {
      SummaryLessAddsNothing(acc, results[1..]);
    }
  }
}
