/** error_analyzer.py: `ErrorCollection`, which records errors as they
    happen, and the counting part of `ErrorAnalyzer`. A Python dict used as a
    counter keeps its keys in insertion order, so it is modelled as a list of
    (key, count) pairs; the regular-expression matching is a parameter. */
module ErrorAnalyzer {
  import opened Wrappers
  import opened Json
  import Errors
  import Text

  // ------------------------------------------------------------ counters

  /** Python `==` on values usable as dict keys: a bool and an int are the
      same key when their values agree. */
  predicate PyEq(a: Json, b: Json) {
    if AsInt(a).Some? && AsInt(b).Some? then AsInt(a).value == AsInt(b).value else a == b
  }

  /** Lists and dicts cannot be dict keys. */
  predicate Hashable(k: Json) {
    !k.JArr? && !k.JObj?
  }

  function Unhashable(k: Json): PyError {
    PyError("TypeError", "unhashable type: '" + TypeName(k) + "'")
  }

  /** One entry of a counting dict. */
  datatype TypeCount = TypeCount(key: Json, count: nat)

  /** The position of the key equal to `k`, if any. */
  function Find(tc: seq<TypeCount>, k: Json): (r: Option<nat>)
    ensures r.Some? ==> r.value < |tc| && PyEq(tc[r.value].key, k)
                        && forall i | 0 <= i < r.value :: !PyEq(tc[i].key, k)
    ensures r.None? ==> forall i | 0 <= i < |tc| :: !PyEq(tc[i].key, k)
    decreases |tc|
  {
    if |tc| == 0 then None
    else if PyEq(tc[0].key, k) then Some(0)
    else match Find(tc[1..], k)
         case None => None
         case Some(i) => Some(i + 1)
  }

  /** `d[k]` with 0 for a missing key. */
  function CountOf(tc: seq<TypeCount>, k: Json): nat {
    match Find(tc, k)
    case None => 0
    case Some(i) => tc[i].count
  }

  /** `d[k] = d.get(k, 0) + 1`: an existing key keeps its place, a new one
      goes last. */
  function Bump(tc: seq<TypeCount>, k: Json): seq<TypeCount> {
    match Find(tc, k)
    case None => tc + [TypeCount(k, 1)]
    case Some(i) => tc[i := tc[i].(count := tc[i].count + 1)]
  }

  /** The sum of the counts. */
  function Total(tc: seq<TypeCount>): nat
    decreases |tc|
  {
    if |tc| == 0 then 0 else Total(tc[..|tc| - 1]) + tc[|tc| - 1].count
  }

  /** No two keys are equal. */
  predicate DistinctKeys(tc: seq<TypeCount>) {
    forall i, j | 0 <= i < j < |tc| :: !PyEq(tc[i].key, tc[j].key)
  }

  /** A well-formed counter: distinct hashable keys, each counted once at least. */
  predicate CounterOk(tc: seq<TypeCount>) {
    && DistinctKeys(tc)
    && (forall i | 0 <= i < |tc| :: Hashable(tc[i].key) && tc[i].count >= 1)
  }

  lemma {:induction false} TotalUpdate(tc: seq<TypeCount>, i: nat, c: nat)
    requires i < |tc|
    ensures Total(tc[i := tc[i].(count := c)]) == Total(tc) - tc[i].count + c
    decreases |tc|
  {
    var u := tc[i := tc[i].(count := c)];
    if i < |tc| - 1 {
      TotalUpdate(tc[..|tc| - 1], i, c);
      assert u[..|u| - 1] == tc[..|tc| - 1][i := tc[i].(count := c)];
    } else {
      assert u[..|u| - 1] == tc[..|tc| - 1];
    }
  }

  /** Counting a key raises the total by one. */
  lemma BumpTotal(tc: seq<TypeCount>, k: Json)
    ensures Total(Bump(tc, k)) == Total(tc) + 1
  {
    var b := Bump(tc, k);
    match Find(tc, k)
    case None =>
      assert b[..|b| - 1] == tc;
    case Some(i) =>
      TotalUpdate(tc, i, tc[i].count + 1);
  }

  /** Counting a hashable key keeps the counter well formed; a new key goes
      last and the other keys stay where they were. */
  lemma BumpShape(tc: seq<TypeCount>, k: Json)
    requires CounterOk(tc) && Hashable(k)
    ensures CounterOk(Bump(tc, k))
    ensures |Bump(tc, k)| == |tc| + (if Find(tc, k).None? then 1 else 0)
    ensures forall p | 0 <= p < |tc| :: Bump(tc, k)[p].key == tc[p].key
    ensures Find(tc, k).None? ==> Bump(tc, k)[|tc|].key == k
  {
  }

  /** Counting a key adds one to that key's count and changes no other. */
  lemma BumpCounts(tc: seq<TypeCount>, k: Json)
    ensures CountOf(Bump(tc, k), k) == CountOf(tc, k) + 1
    ensures forall j | !PyEq(j, k) :: CountOf(Bump(tc, k), j) == CountOf(tc, j)
  {
    var b := Bump(tc, k);
    match Find(tc, k)
    case None =>
      forall j
        ensures Find(b, j) == (if Find(tc, j).Some? then Find(tc, j) else if PyEq(k, j) then Some(|tc|) else None)
      {
        FindAppend(tc, TypeCount(k, 1), j);
      }
      forall j | !PyEq(j, k)
        ensures !PyEq(k, j)
      {
        PyEqSwap(j, k);
      }
    case Some(i) =>
      forall j
        ensures Find(b, j) == Find(tc, j)
      {
        FindSameKeys(tc, b, j);
      }
  }

  lemma {:induction false} FindAppend(tc: seq<TypeCount>, x: TypeCount, j: Json)
    ensures Find(tc + [x], j) == (if Find(tc, j).Some? then Find(tc, j)
                                  else if PyEq(x.key, j) then Some(|tc|) else None)
    decreases |tc|
  {
    if |tc| > 0 {
      assert (tc + [x])[1..] == tc[1..] + [x];
      FindAppend(tc[1..], x, j);
    }
  }

  lemma {:induction false} FindSameKeys(a: seq<TypeCount>, b: seq<TypeCount>, j: Json)
    requires |a| == |b| && forall i | 0 <= i < |a| :: a[i].key == b[i].key
    ensures Find(a, j) == Find(b, j)
    decreases |a|
  {
    if |a| > 0 {
      FindSameKeys(a[1..], b[1..], j);
    }
  }

  lemma PyEqSwap(a: Json, b: Json)
    ensures PyEq(a, b) <==> PyEq(b, a)
  {
  }

  /** If a equals b but not c, then b does not equal c. */
  lemma PyEqApart(a: Json, b: Json, c: Json)
    requires PyEq(a, b) && !PyEq(a, c)
    ensures !PyEq(b, c)
  {
  }

  /** Equal keys are found at the same place. */
  lemma {:induction false} FindEq(tc: seq<TypeCount>, a: Json, b: Json)
    requires PyEq(a, b)
    ensures Find(tc, a) == Find(tc, b)
    decreases |tc|
  {
    if |tc| > 0 {
      FindEq(tc[1..], a, b);
    }
  }

  /** `Counter(xs)`: counting in order; an unhashable value raises. */
  function CountAll(xs: seq<Json>): (r: Result<seq<TypeCount>, PyError>)
    decreases |xs|
  {
    if |xs| == 0 then Ok([])
    else
      var tc :- CountAll(xs[..|xs| - 1]);
      if Hashable(xs[|xs| - 1]) then Ok(Bump(tc, xs[|xs| - 1])) else Err(Unhashable(xs[|xs| - 1]))
  }

  /** How many of `xs` equal `k`. */
  function Occurrences(xs: seq<Json>, k: Json): nat
    decreases |xs|
  {
    if |xs| == 0 then 0 else Occurrences(xs[..|xs| - 1], k) + (if PyEq(xs[|xs| - 1], k) then 1 else 0)
  }

  /** No two of `xs` are equal. */
  predicate AllDistinct(xs: seq<Json>) {
    forall i, j | 0 <= i < j < |xs| :: !PyEq(xs[i], xs[j])
  }

  /** Counting fails exactly on an unhashable value. */
  lemma {:induction false} CountAllOk(xs: seq<Json>)
    ensures CountAll(xs).Ok? <==> forall i | 0 <= i < |xs| :: Hashable(xs[i])
    decreases |xs|
  {
    if |xs| > 0 {
      CountAllOk(xs[..|xs| - 1]);
      assert forall i | 0 <= i < |xs| - 1 :: xs[..|xs| - 1][i] == xs[i];
    }
  }

  /** One step of the counting loop. */
  lemma CountAllStep(xs: seq<Json>)
    requires |xs| > 0 && CountAll(xs).Ok?
    ensures CountAll(xs[..|xs| - 1]).Ok? && Hashable(xs[|xs| - 1])
    ensures CountAll(xs).value == Bump(CountAll(xs[..|xs| - 1]).value, xs[|xs| - 1])
  {
  }

  /** A counter of a list is well formed, sums to the list's length and has
      no more entries than the list. */
  lemma {:induction false} CountAllCounter(xs: seq<Json>)
    requires CountAll(xs).Ok?
    ensures CounterOk(CountAll(xs).value)
    ensures Total(CountAll(xs).value) == |xs|
    ensures |CountAll(xs).value| <= |xs|
    decreases |xs|
  {
    if |xs| > 0 {
      CountAllStep(xs);
      var tc := CountAll(xs[..|xs| - 1]).value;
      CountAllCounter(xs[..|xs| - 1]);
      BumpTotal(tc, xs[|xs| - 1]);
      BumpShape(tc, xs[|xs| - 1]);
    }
  }

  /** Each key of a counter is a value of the list, and each value of the
      list has a key. */
  lemma {:induction false} CountAllKeys(xs: seq<Json>)
    requires CountAll(xs).Ok?
    ensures forall p | 0 <= p < |CountAll(xs).value| :: CountAll(xs).value[p].key in xs
    ensures forall i | 0 <= i < |xs| :: Find(CountAll(xs).value, xs[i]).Some?
    decreases |xs|
  {
    if |xs| > 0 {
      var init, last := xs[..|xs| - 1], xs[|xs| - 1];
      assert xs == init + [last];
      CountAllStep(xs);
      CountAllKeys(init);
      KeysAfterBump(CountAll(init).value, last, init);
    }
  }

  /** Bumping keeps every key found and adds only the bumped one. */
  lemma KeysAfterBump(tc: seq<TypeCount>, k: Json, vals: seq<Json>)
    requires forall p | 0 <= p < |tc| :: tc[p].key in vals
    requires forall i | 0 <= i < |vals| :: Find(tc, vals[i]).Some?
    ensures forall p | 0 <= p < |Bump(tc, k)| :: Bump(tc, k)[p].key in vals + [k]
    ensures forall i | 0 <= i < |vals + [k]| :: Find(Bump(tc, k), (vals + [k])[i]).Some?
  {
    if Find(tc, k).None? {
      KeysAfterAppend(tc, k, vals);
    } else {
      KeysAfterIncrement(tc, k, vals);
    }
  }

  lemma KeysAfterAppend(tc: seq<TypeCount>, k: Json, vals: seq<Json>)
    requires Find(tc, k).None?
    requires forall p | 0 <= p < |tc| :: tc[p].key in vals
    requires forall i | 0 <= i < |vals| :: Find(tc, vals[i]).Some?
    ensures forall p | 0 <= p < |tc + [TypeCount(k, 1)]| :: (tc + [TypeCount(k, 1)])[p].key in vals + [k]
    ensures forall i | 0 <= i < |vals + [k]| :: Find(tc + [TypeCount(k, 1)], (vals + [k])[i]).Some?
  {
    var b := tc + [TypeCount(k, 1)];
    forall i | 0 <= i < |vals + [k]|
      ensures Find(b, (vals + [k])[i]).Some?
    {
      FindAppend(tc, TypeCount(k, 1), (vals + [k])[i]);
    }
  }

  lemma BumpSameKeys(tc: seq<TypeCount>, k: Json)
    requires Find(tc, k).Some?
    ensures |Bump(tc, k)| == |tc| && forall p | 0 <= p < |tc| :: Bump(tc, k)[p].key == tc[p].key
  {
  }

  lemma KeysAfterIncrement(tc: seq<TypeCount>, k: Json, vals: seq<Json>)
    requires Find(tc, k).Some?
    requires forall p | 0 <= p < |tc| :: tc[p].key in vals
    requires forall i | 0 <= i < |vals| :: Find(tc, vals[i]).Some?
    ensures forall p | 0 <= p < |Bump(tc, k)| :: Bump(tc, k)[p].key in vals + [k]
    ensures forall i | 0 <= i < |vals + [k]| :: Find(Bump(tc, k), (vals + [k])[i]).Some?
  {
    BumpSameKeys(tc, k);
    var b := Bump(tc, k);
    forall p | 0 <= p < |b|
      ensures b[p].key in vals + [k]
    {
      assert b[p].key == tc[p].key && tc[p].key in vals;
    }
    var ext := vals + [k];
    forall i | 0 <= i < |ext|
      ensures Find(b, ext[i]).Some?
    {
      FindSameKeys(tc, b, ext[i]);
      if i < |vals| {
        assert ext[i] == vals[i];
      }
    }
  }

  /** A counter counts every value as often as it occurs. */
  lemma {:induction false} CountAllOccurrences(xs: seq<Json>)
    requires CountAll(xs).Ok?
    ensures forall k :: CountOf(CountAll(xs).value, k) == Occurrences(xs, k)
    decreases |xs|
  {
    if |xs| > 0 {
      var init := xs[..|xs| - 1];
      var last := xs[|xs| - 1];
      CountAllOccurrences(init);
      var tc := CountAll(init).value;
      var b := Bump(tc, last);
      BumpCounts(tc, last);
      forall k
        ensures CountOf(b, k) == Occurrences(xs, k)
      {
        PyEqSwap(last, k);
        if PyEq(last, k) {
          FindEq(tc, last, k);
          FindEq(b, last, k);
        }
      }
    }
  }

  /** A counter has one entry per value exactly when the values are
      pairwise distinct. */
  lemma {:induction false} CountAllDistinct(xs: seq<Json>)
    requires CountAll(xs).Ok?
    ensures |CountAll(xs).value| == |xs| <==> AllDistinct(xs)
    decreases |xs|
  {
    if |xs| > 0 {
      var init := xs[..|xs| - 1];
      var last := xs[|xs| - 1];
      assert xs == init + [last];
      CountAllStep(xs);
      CountAllDistinct(init);
      CountAllKeys(init);
      CountAllCounter(init);
      var tc := CountAll(init).value;
      BumpShape(tc, last);
      if AllDistinct(xs) {
        DistinctNotFound(init, tc, last);
        DistinctPrefix(init, last);
      }
      if Find(tc, last).None? && AllDistinct(init) {
        NotFoundDistinct(init, tc, last);
      }
    }
  }

  lemma DistinctPrefix(init: seq<Json>, last: Json)
    requires AllDistinct(init + [last])
    ensures AllDistinct(init)
  {
    assert forall i | 0 <= i < |init| :: (init + [last])[i] == init[i];
  }

  /** A value distinct from the whole list is not among its keys. */
  lemma DistinctNotFound(init: seq<Json>, tc: seq<TypeCount>, last: Json)
    requires forall p | 0 <= p < |tc| :: tc[p].key in init
    requires AllDistinct(init + [last])
    ensures Find(tc, last).None?
  {
    var xs := init + [last];
    forall p | 0 <= p < |tc|
      ensures !PyEq(tc[p].key, last)
    {
      var j :| 0 <= j < |init| && init[j] == tc[p].key;
      assert xs[j] == init[j] && xs[|init|] == last;
    }
  }

  /** A value not among the keys of a list's counter differs from every
      value of the list. */
  lemma NotFoundDistinct(init: seq<Json>, tc: seq<TypeCount>, last: Json)
    requires forall i | 0 <= i < |init| :: Find(tc, init[i]).Some?
    requires Find(tc, last).None? && AllDistinct(init)
    ensures AllDistinct(init + [last])
  {
    var xs := init + [last];
    forall i, j | 0 <= i < j < |xs|
      ensures !PyEq(xs[i], xs[j])
    {
      assert xs[i] == init[i];
      if j == |init| {
        var p := Find(tc, init[i]).value;
        PyEqApart(tc[p].key, init[i], last);
      } else {
        assert xs[j] == init[j];
      }
    }
  }

  /** The counter of a list: it fails exactly on an unhashable value, and
      otherwise counts every value as often as it occurs, sums to the
      length, and has one entry per value when, and only when, the values
      are pairwise distinct. */
  lemma CountAllSpec(xs: seq<Json>)
    ensures CountAll(xs).Ok? <==> forall i | 0 <= i < |xs| :: Hashable(xs[i])
    ensures CountAll(xs).Ok? ==>
              && CounterOk(CountAll(xs).value)
              && Total(CountAll(xs).value) == |xs|
              && (forall k :: CountOf(CountAll(xs).value, k) == Occurrences(xs, k))
              && (|CountAll(xs).value| == |xs| <==> AllDistinct(xs))
  {
    CountAllOk(xs);
    if CountAll(xs).Ok? {
      CountAllCounter(xs);
      CountAllOccurrences(xs);
      CountAllDistinct(xs);
    }
  }

  /** The index `max(d.items(), key=count)` picks: the first entry with the
      largest count. */
  function FirstMax(tc: seq<TypeCount>): (b: nat)
    requires |tc| > 0
    ensures b < |tc|
    ensures forall j | 0 <= j < |tc| :: tc[j].count <= tc[b].count
    ensures forall j | 0 <= j < b :: tc[j].count < tc[b].count
    decreases |tc|
  {
    if |tc| == 1 then 0
    else
      var b := FirstMax(tc[..|tc| - 1]);
      assert forall j | 0 <= j < |tc| - 1 :: tc[..|tc| - 1][j] == tc[j];
      if tc[|tc| - 1].count > tc[b].count then |tc| - 1 else b
  }

  function StatusJson(code: Option<int>): Json {
    if code.Some? then JInt(code.value) else JNull
  }

  // ------------------------------------------------------ ErrorCollection

  /** What can be handed to `add_error` or `analyze_error`: a dict, an
      exception, or any other value, known here only by its `str`. */
  datatype Reported = DictError(fields: map<string, Json>) | Raised(e: Errors.Error) | Other(text: string)

  /** The error's type and message as `add_error` extracts them. */
  function TypeOf(error: Reported): Json {
    match error
    case DictError(f) => if "type" in f then f["type"] else JStr("UnknownError")
    case Raised(e) => JStr(Errors.ClassName(e))
    case Other(_) => JStr("UnknownError")
  }

  function MessageOf(error: Reported): Json {
    match error
    case DictError(f) => if "message" in f then f["message"] else JStr(Show(JObj(f)))
    case Raised(e) => JStr(Errors.Str(e))
    case Other(text) => JStr(text)
  }

  datatype Collection = Collection(errors: seq<map<string, Json>>, errorCount: nat, errorTypes: seq<TypeCount>)

  /** `ErrorCollection()` */
  const NoErrors := Collection([], 0, [])

  /** What every collection built by `add_error` satisfies. */
  predicate Valid(c: Collection) {
    && c.errorCount == |c.errors|
    && CounterOk(c.errorTypes)
    && Total(c.errorTypes) == c.errorCount
  }

  /** The entry `add_error` appends: base fields, then the context over
      them, then `status_code` for a package ApiError and `exception` for
      any exception. `now` is the timestamp. */
  function Entry(id: int, error: Reported, context: Option<map<string, Json>>, now: string): (entry: map<string, Json>)
    ensures "id" in entry && "timestamp" in entry && "type" in entry && "message" in entry
    ensures var ctx := if context.Some? then context.value else map[];
            && ("id" !in ctx ==> entry["id"] == JInt(id))
            && ("type" !in ctx ==> entry["type"] == TypeOf(error))
            && ("message" !in ctx ==> entry["message"] == MessageOf(error))
            && (forall k | k in ctx && k != "status_code" && k != "exception" :: k in entry && entry[k] == ctx[k])
            && (!error.Raised? && "status_code" !in ctx ==> "status_code" !in entry)
            && (!error.Raised? && "exception" !in ctx ==> "exception" !in entry)
    ensures error.Raised? ==> "exception" in entry && entry["exception"] == JStr(Errors.ClassName(error.e))
    ensures error.Raised? && Errors.IsApiError(error.e) ==>
              "status_code" in entry && entry["status_code"] == StatusJson(error.e.statusCode)
  {
    var base := map["id" := JInt(id), "timestamp" := JStr(now), "type" := TypeOf(error), "message" := MessageOf(error)];
    var withContext := if context.Some? && |context.value| > 0 then base + context.value else base;
    var withStatus :=
      if error.Raised? && Errors.IsApiError(error.e) then withContext["status_code" := StatusJson(error.e.statusCode)]
      else withContext;
    if error.Raised? then withStatus["exception" := JStr(Errors.ClassName(error.e))] else withStatus
  }

  /** `add_error(error, context)`: the entry numbered one past the current
      count goes last and the error's type is counted. */
  function AddError(c: Collection, error: Reported, context: Option<map<string, Json>>, now: string)
    : (r: Result<Collection, PyError>)
    ensures r.Err? <==> !Hashable(TypeOf(error))
    ensures r.Ok? ==>
              && r.value.errorCount == c.errorCount + 1
              && |r.value.errors| == |c.errors| + 1
              && r.value.errors[..|c.errors|] == c.errors
              && r.value.errors[|c.errors|] == Entry(c.errorCount + 1, error, context, now)
  {
    var t := TypeOf(error);
    if !Hashable(t) then Err(Unhashable(t))
    else Ok(Collection(c.errors + [Entry(c.errorCount + 1, error, context, now)], c.errorCount + 1,
                       Bump(c.errorTypes, t)))
  }

  /** Adding an error keeps the collection valid: one more entry, and the
      type counts still sum to the number of errors; only the error's own
      type is counted up. */
  lemma AddErrorValid(c: Collection, error: Reported, context: Option<map<string, Json>>, now: string)
    requires Valid(c) && AddError(c, error, context, now).Ok?
    ensures Valid(AddError(c, error, context, now).value)
    ensures CountOf(AddError(c, error, context, now).value.errorTypes, TypeOf(error))
            == CountOf(c.errorTypes, TypeOf(error)) + 1
    ensures forall j | !PyEq(j, TypeOf(error)) ::
              CountOf(AddError(c, error, context, now).value.errorTypes, j) == CountOf(c.errorTypes, j)
  {
    BumpTotal(c.errorTypes, TypeOf(error));
    BumpShape(c.errorTypes, TypeOf(error));
    BumpCounts(c.errorTypes, TypeOf(error));
  }

  /** Entries whose "type" is `t`, in order. */
  function OfType(errors: seq<map<string, Json>>, t: string): (r: seq<map<string, Json>>)
    ensures |r| <= |errors|
    ensures forall e | e in r :: "type" in e && e["type"] == JStr(t)
    ensures forall i | 0 <= i < |errors| && "type" in errors[i] && errors[i]["type"] == JStr(t) :: errors[i] in r
    decreases |errors|
  {
    if |errors| == 0 then []
    else
      var rest := OfType(errors[..|errors| - 1], t);
      assert forall i | 0 <= i < |errors| - 1 :: errors[..|errors| - 1][i] == errors[i];
      var last := errors[|errors| - 1];
      if "type" in last && last["type"] == JStr(t) then rest + [last] else rest
  }

  /** Filtering keeps the order: the entries of a later batch come after
      those of an earlier one. */
  lemma {:induction false} OfTypeAppend(a: seq<map<string, Json>>, b: seq<map<string, Json>>, t: string)
    ensures OfType(a + b, t) == OfType(a, t) + OfType(b, t)
    decreases |b|
  {
    if |b| > 0 {
      assert (a + b)[..|a + b| - 1] == a + b[..|b| - 1];
      OfTypeAppend(a, b[..|b| - 1], t);
    } else {
      assert a + b == a;
    }
  }

  /** `get_errors(error_type)`: an empty or missing type gives every entry;
      otherwise the entries of that type, in insertion order (`OfTypeAppend`
      states the order). */
  function GetErrors(c: Collection, errorType: Option<string>): (r: seq<map<string, Json>>)
    ensures errorType.None? || errorType.value == "" ==> r == c.errors
    ensures errorType.Some? && errorType.value != "" ==>
              forall e | e in r :: "type" in e && e["type"] == JStr(errorType.value)
    ensures errorType.Some? && errorType.value != "" ==>
              forall i | 0 <= i < |c.errors| && "type" in c.errors[i] && c.errors[i]["type"] == JStr(errorType.value)
                :: c.errors[i] in r
  {
    if errorType.Some? && |errorType.value| > 0 then OfType(c.errors, errorType.value) else c.errors
  }

  /** `get_summary()`, as far as the collection decides it. */
  datatype CollectionSummary = CollectionSummary(totalErrors: nat, errorTypes: seq<TypeCount>,
                                                 mostCommonType: Option<Json>, hasApiErrors: bool,
                                                 hasValidationErrors: bool)

  function GetSummary(c: Collection): (s: CollectionSummary)
    ensures s.mostCommonType.None? <==> |c.errorTypes| == 0
    ensures s.mostCommonType.Some? ==>
              exists b | 0 <= b < |c.errorTypes| ::
                && c.errorTypes[b].key == s.mostCommonType.value
                && (forall j | 0 <= j < |c.errorTypes| :: c.errorTypes[j].count <= c.errorTypes[b].count)
                && (forall j | 0 <= j < b :: c.errorTypes[j].count < c.errorTypes[b].count)
    ensures s.hasApiErrors <==>
              exists i | 0 <= i < |c.errors| :: "status_code" in c.errors[i] && c.errors[i]["status_code"] != JNull
    ensures s.hasValidationErrors <==>
              Find(c.errorTypes, JStr("ValidationError")).Some? || Find(c.errorTypes, JStr("PayloadValidationError")).Some?
  {
    CollectionSummary(
      c.errorCount, c.errorTypes,
      if |c.errorTypes| == 0 then None else Some(c.errorTypes[FirstMax(c.errorTypes)].key),
      exists i | 0 <= i < |c.errors| :: "status_code" in c.errors[i] && c.errors[i]["status_code"] != JNull,
      Find(c.errorTypes, JStr("ValidationError")).Some? || Find(c.errorTypes, JStr("PayloadValidationError")).Some?)
  }

  /** A valid collection has a most common type exactly when it holds an error. */
  lemma MostCommonWhenAny(c: Collection)
    requires Valid(c)
    ensures GetSummary(c).mostCommonType.Some? <==> c.errorCount > 0
  {
    if |c.errorTypes| > 0 {
      TotalPositive(c.errorTypes);
    }
  }

  lemma {:induction false} TotalPositive(tc: seq<TypeCount>)
    requires |tc| > 0 && forall i | 0 <= i < |tc| :: tc[i].count >= 1
    ensures Total(tc) >= 1
  {
    assert tc[|tc| - 1].count >= 1;
  }

  // ------------------------------------------------------- ErrorAnalyzer

  /** The first entry of the pattern table whose regular expression matches
      the lower-cased message: its type and suggestion. */
  datatype Pattern = Pattern(kind: string, suggestion: string)

  /** `analyze_error(error)` without its timestamp. */
  datatype Analyzed = Analyzed(kind: Json, message: string, details: map<string, Json>, suggestion: string)

  const NoSuggestion := "No specific suggestion available"

  /** `analyze_error(error)`: a dict's message must be a string, since it is
      lower-cased before matching. */
  function AnalyzeError(error: Reported, classify: string -> Option<Pattern>): (r: Result<Analyzed, PyError>)
    ensures r.Err? <==> !MessageOf(error).JStr?
    ensures r.Ok? ==> r.value.message == MessageOf(error).s
    ensures r.Ok? && classify(r.value.message).None? ==>
              r.value.kind == TypeOf(error) && r.value.suggestion == NoSuggestion
    ensures r.Ok? && classify(r.value.message).Some? ==>
              r.value.kind == JStr(classify(r.value.message).value.kind)
              && r.value.suggestion == classify(r.value.message).value.suggestion
  {
    var message := MessageOf(error);
    if !message.JStr? then Err(PyError("AttributeError", "'" + TypeName(message) + "' object has no attribute 'lower'"))
    else
      var details :=
        match error
        case DictError(f) => f
        case Raised(e) =>
          if Errors.IsApiError(e) then map["message" := message, "status_code" := StatusJson(e.statusCode)]
          else map["message" := message]
        case Other(_) => map["message" := message];
      match classify(message.s)
      case Some(p) => Ok(Analyzed(JStr(p.kind), message.s, details, p.suggestion))
      case None => Ok(Analyzed(TypeOf(error), message.s, details, NoSuggestion))
  }

  /** Analysing each error in turn; the first failure ends the list. */
  function AnalyzeAll(errors: seq<Reported>, classify: string -> Option<Pattern>): (r: Result<seq<Analyzed>, PyError>)
    ensures r.Ok? ==> |r.value| == |errors|
    decreases |errors|
  {
    if |errors| == 0 then Ok([])
    else
      var first :- AnalyzeError(errors[0], classify);
      var rest :- AnalyzeAll(errors[1..], classify);
      Ok([first] + rest)
  }

  function Kinds(analyzed: seq<Analyzed>): (r: seq<Json>)
    ensures |r| == |analyzed| && forall i | 0 <= i < |r| :: r[i] == analyzed[i].kind
  {
    seq(|analyzed|, i requires 0 <= i < |analyzed| => analyzed[i].kind)
  }

  function Suggestions(analyzed: seq<Analyzed>): (r: seq<Json>)
    ensures |r| == |analyzed| && forall i | 0 <= i < |r| :: r[i] == JStr(analyzed[i].suggestion)
  {
    seq(|analyzed|, i requires 0 <= i < |analyzed| => JStr(analyzed[i].suggestion))
  }

  /** The report of `analyze_batch`. */
  datatype BatchReport =
    | NothingToAnalyze
    | Report(count: nat, message: string, hasPatterns: bool, primaryErrorType: Json,
             errorTypes: seq<TypeCount>, suggestions: seq<TypeCount>, errors: seq<Analyzed>,
             uniqueErrorTypes: nat, primarySuggestion: Json)

  /** `analyze_batch(errors)` */
  function AnalyzeBatch(errors: seq<Reported>, classify: string -> Option<Pattern>): (r: Result<BatchReport, PyError>)
    ensures |errors| == 0 ==> r == Ok(NothingToAnalyze)
    ensures r.Ok? && |errors| > 0 ==>
              && r.value.Report?
              && r.value.count == |errors| == |r.value.errors|
              && r.value.uniqueErrorTypes == |r.value.errorTypes|
              && (r.value.hasPatterns <==> |r.value.errorTypes| < |errors|)
  {
    if |errors| == 0 then Ok(NothingToAnalyze)
    else
      var analyzed :- AnalyzeAll(errors, classify);
      var types :- CountAll(Kinds(analyzed));
      var suggestions :- CountAll(Suggestions(analyzed));
      Ok(BuildReport(analyzed, types, suggestions))
  }

  /** The report's fields, from the analysed errors and the two counters. */
  function BuildReport(analyzed: seq<Analyzed>, types: seq<TypeCount>, suggestions: seq<TypeCount>): (r: BatchReport)
    ensures r.Report? && r.count == |analyzed| && r.errors == analyzed
    ensures r.errorTypes == types && r.suggestions == suggestions && r.uniqueErrorTypes == |types|
    ensures r.hasPatterns <==> |types| < |analyzed|
    ensures |types| == 0 ==> r.primaryErrorType == JStr("Unknown")
    ensures |types| > 0 ==> exists b | 0 <= b < |types| :: r.primaryErrorType == types[b].key
                              && (forall j | 0 <= j < |types| :: types[j].count <= types[b].count)
                              && (forall j | 0 <= j < b :: types[j].count < types[b].count)
  {
    var primary := if |types| == 0 then JStr("Unknown") else types[FirstMax(types)].key;
    var message :=
      if |types| == 1 then "All errors are of type " + Show(primary)
      else "Multiple error types detected, most common: " + Show(primary) + " ("
           + Text.NatToString(CountOf(types, primary)) + " occurrences)";
    var primarySuggestion :=
      if |suggestions| == 0 then JStr("No suggestion") else suggestions[FirstMax(suggestions)].key;
    Report(|analyzed|, message, |types| < |analyzed|, primary, types, suggestions, analyzed,
           |types|, primarySuggestion)
  }

  /** A report counts each analysed type as often as it occurs, and finds a
      pattern exactly when two errors share a type. */
  lemma AnalyzeBatchCounts(errors: seq<Reported>, classify: string -> Option<Pattern>)
    requires |errors| > 0 && AnalyzeBatch(errors, classify).Ok?
    ensures var r := AnalyzeBatch(errors, classify).value;
            && Total(r.errorTypes) == |errors|
            && (forall k :: CountOf(r.errorTypes, k) == Occurrences(Kinds(r.errors), k))
            && (r.hasPatterns <==> !AllDistinct(Kinds(r.errors)))
  {
    AnalyzeBatchParts(errors, classify);
    var r := AnalyzeBatch(errors, classify).value;
    TypeCounterFacts(r.errors, r.errorTypes);
  }

  lemma TypeCounterFacts(analyzed: seq<Analyzed>, types: seq<TypeCount>)
    requires CountAll(Kinds(analyzed)) == Ok(types)
    ensures Total(types) == |analyzed|
    ensures forall k :: CountOf(types, k) == Occurrences(Kinds(analyzed), k)
    ensures |types| < |analyzed| <==> !AllDistinct(Kinds(analyzed))
  {
    CountAllCounter(Kinds(analyzed));
    CountAllOccurrences(Kinds(analyzed));
    CountAllDistinct(Kinds(analyzed));
  }

  /** Where the report's lists come from. */
  lemma AnalyzeBatchParts(errors: seq<Reported>, classify: string -> Option<Pattern>)
    requires |errors| > 0 && AnalyzeBatch(errors, classify).Ok?
    ensures AnalyzeAll(errors, classify).Ok?
    ensures CountAll(Kinds(AnalyzeAll(errors, classify).value)).Ok?
    ensures AnalyzeBatch(errors, classify).value.errors == AnalyzeAll(errors, classify).value
    ensures CountAll(Kinds(AnalyzeAll(errors, classify).value)) == Ok(AnalyzeBatch(errors, classify).value.errorTypes)
    ensures AnalyzeBatch(errors, classify).value.hasPatterns
            <==> |AnalyzeBatch(errors, classify).value.errorTypes| < |AnalyzeAll(errors, classify).value|
  {
  }

  /** An analysis fails only on a message that is not a string or a type
      that cannot be a dict key. */
  lemma AnalyzeBatchFails(errors: seq<Reported>, classify: string -> Option<Pattern>)
    requires forall i | 0 <= i < |errors| :: MessageOf(errors[i]).JStr? && Hashable(TypeOf(errors[i]))
    ensures AnalyzeBatch(errors, classify).Ok?
  {
    if |errors| > 0 {
      AnalyzeAllOk(errors, classify);
      var analyzed := AnalyzeAll(errors, classify).value;
      CountAllSpec(Kinds(analyzed));
      CountAllSpec(Suggestions(analyzed));
    }
  }

  lemma {:induction false} AnalyzeAllOk(errors: seq<Reported>, classify: string -> Option<Pattern>)
    requires forall i | 0 <= i < |errors| :: MessageOf(errors[i]).JStr? && Hashable(TypeOf(errors[i]))
    ensures AnalyzeAll(errors, classify).Ok?
    ensures forall i | 0 <= i < |errors| :: Hashable(AnalyzeAll(errors, classify).value[i].kind)
    decreases |errors|
  {
    if |errors| > 0 {
      AnalyzeAllOk(errors[1..], classify);
      var r := AnalyzeAll(errors, classify).value;
      forall i | 0 <= i < |errors|
        ensures Hashable(r[i].kind)
      {
        if i > 0 {
          assert r[i] == AnalyzeAll(errors[1..], classify).value[i - 1];
        }
      }
    }
  }

  // ---------------------------------------------------------- suggest_fixes

  datatype Fix = Fix(issue: string, suggestion: string, implementation: string)

  /** The types `suggest_fixes` knows, in the order it checks them. */
  const KnownKinds: seq<string> := ["RateLimit", "Authentication", "Validation", "Connection", "Timeout", "CSVConversion"]

  const GeneralFix := Fix("General errors", "Review error details and retry with modified parameters",
                          "Check logs for specific error messages")

  /** The fix offered for the known type at position `n`; for validation
      errors it names the fields the messages mention, when there are any. */
  function FixAt(n: nat, fields: seq<string>): Fix
    requires n < |KnownKinds|
  {
    match n
    case 0 => // RateLimit
      Fix("Rate limiting", "Reduce request frequency or implement exponential backoff",
          "Use --max-concurrent=3 and --batch-size=50 to reduce API load")
    case 1 => // Authentication
      Fix("Authentication failure", "Verify API token", "Check that your API token is valid and not expired")
    case 2 => // Validation
      if |fields| > 0 then
        Fix("Payload validation errors", "Fix problems in these fields: " + Text.Join(fields, ", "),
            "Ensure all required fields are present and properly formatted")
      else
        Fix("Payload validation errors", "Check payload structure against API requirements",
            "Verify your data matches the expected format")
    case 3 => // Connection
      Fix("Network connectivity issues", "Check network connection and API endpoint",
          "Verify internet connection and DNS resolution")
    case 4 => // Timeout
      Fix("Request timeouts", "Increase timeout or reduce payload size",
          "Use smaller batch sizes or increase timeout settings")
    case _ => // CSVConversion
      Fix("CSV parsing problems", "Check CSV format and required columns",
          "Verify CSV contains all required fields with proper data types")
  }

  /** The positions of the known types that occur among the counted types. */
  function PresentKinds(types: seq<TypeCount>): (p: set<nat>)
    ensures forall m | m in p :: m < |KnownKinds|
    ensures forall m | 0 <= m < |KnownKinds| :: m in p <==> Find(types, JStr(KnownKinds[m])).Some?
  {
    set m: nat | m < |KnownKinds| && Find(types, JStr(KnownKinds[m])).Some?
  }

  /** The positions in `present`, from `n` on, in increasing order. */
  function PresentFrom(n: nat, present: set<nat>): (r: seq<nat>)
    requires n <= |KnownKinds|
    ensures forall i | 0 <= i < |r| :: n <= r[i] < |KnownKinds| && r[i] in present
    ensures forall i, j | 0 <= i < j < |r| :: r[i] < r[j]
    ensures forall m | n <= m < |KnownKinds| && m in present :: m in r
    decreases |KnownKinds| - n
  {
    if n == |KnownKinds| then []
    else
      var rest := PresentFrom(n + 1, present);
      if n in present then [n] + rest else rest
  }

  /** The fixes at the given positions. */
  function FixesAt(ms: seq<nat>, fields: seq<string>): (r: seq<Fix>)
    requires forall i | 0 <= i < |ms| :: ms[i] < |KnownKinds|
    ensures |r| == |ms| && forall i | 0 <= i < |ms| :: r[i] == FixAt(ms[i], fields)
  {
    seq(|ms|, i requires 0 <= i < |ms| => FixAt(ms[i], fields))
  }

  /** The fixes for the present known types, one each, in the fixed order. */
  function KnownFixes(present: set<nat>, fields: seq<string>): (r: seq<Fix>)
    ensures r == FixesAt(PresentFrom(0, present), fields)
    ensures |r| <= |KnownKinds|
    ensures |r| == 0 <==> forall m | 0 <= m < |KnownKinds| :: m !in present
  {
    var ms := PresentFrom(0, present);
    StrictlyIncreasingBound(ms);
    FixesAt(ms, fields)
  }

  /** `suggest_fixes(analysis)`; `extractFields` stands for the field
      names the regular expressions find in the validation messages. */
  function SuggestFixes(report: BatchReport, extractFields: seq<Analyzed> -> seq<string>): (r: seq<Fix>)
    ensures report.NothingToAnalyze? || |report.errors| == 0 ==> r == []
    ensures report.Report? && |report.errors| > 0 ==>
              if PresentKinds(report.errorTypes) == {} then r == [GeneralFix]
              else 1 <= |r| <= |KnownKinds|
                   && r == FixesAt(PresentFrom(0, PresentKinds(report.errorTypes)), extractFields(report.errors))
  {
    if report.NothingToAnalyze? || |report.errors| == 0 then []
    else
      var present := PresentKinds(report.errorTypes);
      var fixes := KnownFixes(present, extractFields(report.errors));
      if |fixes| == 0 then
        assert present == {} by {
          forall m | m in present
            ensures false
          {
          }
        }
        [GeneralFix]
      else fixes
  }

  /** A strictly increasing list of positions below 6 has at most 6 entries. */
  lemma {:induction false} StrictlyIncreasingBound(ms: seq<nat>)
    requires forall i | 0 <= i < |ms| :: ms[i] < |KnownKinds|
    requires forall i, j | 0 <= i < j < |ms| :: ms[i] < ms[j]
    ensures |ms| <= |KnownKinds|
  {
    if |ms| > 0 {
      IncreasingFromFirst(ms);
    }
  }

  lemma {:induction false} IncreasingFromFirst(ms: seq<nat>)
    requires |ms| > 0
    requires forall i, j | 0 <= i < j < |ms| :: ms[i] < ms[j]
    ensures ms[|ms| - 1] >= ms[0] + |ms| - 1
    decreases |ms|
  {
    if |ms| > 1 {
      IncreasingFromFirst(ms[..|ms| - 1]);
      assert ms[..|ms| - 1][|ms| - 2] == ms[|ms| - 2];
    }
  }

  /** `ErrorCollection.analyze()`, without the text report. */
  function Analyze(c: Collection, classify: string -> Option<Pattern>, extractFields: seq<Analyzed> -> seq<string>)
    : (r: Result<(BatchReport, seq<Fix>), PyError>)
    ensures |c.errors| == 0 ==> r == Ok((NothingToAnalyze, []))
    ensures r.Ok? ==> r.value.1 == SuggestFixes(r.value.0, extractFields)
  {
    var report :- AnalyzeBatch(seq(|c.errors|, i requires 0 <= i < |c.errors| => DictError(c.errors[i])), classify);
    Ok((report, SuggestFixes(report, extractFields)))
  }
}
