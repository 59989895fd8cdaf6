/** `add_default_options`, which the three clients define identically
    (api_client.py, enhanced_api_client.py, async_api_client.py), with the
    defaults of config.py. */
module Options {
  import opened Wrappers
  import opened Json
  import Validators

  /** `DEFAULT_API_OPTIONS` */
  const DefaultApiOptions: map<string, Json> := map["debug" := JBool(false), "summary" := JBool(true)]

  /** The payload a client sends: `options` is added when absent and, when
      `debug` is set, `options["debug"] = True`. Setting an item on an
      `options` that is not a dict raises Python's TypeError. */
  function AddDefaultOptions(payload: map<string, Json>, debug: bool): (r: Result<map<string, Json>, PyError>)
    ensures r.Err? <==> debug && "options" in payload && !payload["options"].JObj?
    ensures r.Ok? ==> r.value.Keys == payload.Keys + {"options"}
    ensures !debug ==> r.Ok? && ("options" in payload ==> r.value == payload)
    ensures "options" !in payload ==>
              (r.Ok? && "options" in r.value && r.value["options"].JObj?
               && r.value["options"].fields.Keys == {"debug", "summary"}
               && r.value["options"].fields["summary"] == JBool(true)
               && r.value["options"].fields["debug"] == JBool(debug))
    ensures debug && r.Ok? ==>
              ("options" in r.value && r.value["options"].JObj?
               && "debug" in r.value["options"].fields && r.value["options"].fields["debug"] == JBool(true))
    ensures debug && r.Ok? && "options" in payload ==>
              (payload["options"].JObj?
               && r.value["options"].fields.Keys == payload["options"].fields.Keys + {"debug"}
               && (forall k | k in payload["options"].fields && k != "debug" ::
                     r.value["options"].fields[k] == payload["options"].fields[k]))
  {
    var withOptions := if "options" in payload then payload else payload["options" := JObj(DefaultApiOptions)];
    if debug then
      var options :- SetItem(withOptions["options"], "debug", JBool(true));
      Ok(withOptions["options" := options])
    else
      Ok(withOptions)
  }

  /** Every top-level key other than `options` keeps its value. */
  lemma OtherKeysUnchanged(payload: map<string, Json>, debug: bool, k: string)
    requires AddDefaultOptions(payload, debug).Ok?
    requires k in payload && k != "options"
    ensures k in AddDefaultOptions(payload, debug).value
    ensures AddDefaultOptions(payload, debug).value[k] == payload[k]
  {
  }

  /** Merging the defaults never changes what the options mean, except that
      the flag forces debug on: on dict (or absent) options that pass the
      `ApiOptions` contract, the merged options still pass it and read as
      `(debug or before.debug, before.summary)`, with the `ApiOptions`
      defaults for absent fields on both sides. */
  lemma MergedOptionValues(p: map<string, Json>, debug: bool)
    requires Validators.OptionsOk(p)
    requires "options" !in p || p["options"].JObj?
    ensures var before := if "options" in p then p["options"].fields else map[];
            var r := AddDefaultOptions(p, debug);
            && r.Ok? && r.value["options"].JObj?
            && Validators.OptionsOk(map["options" := r.value["options"]])
            && Validators.OptionValues(r.value["options"].fields)
               == (debug || Validators.OptionValues(before).0, Validators.OptionValues(before).1)
  {
  }

  /** Applying the merge a second time changes nothing. */
  lemma AddDefaultOptionsIdempotent(payload: map<string, Json>, debug: bool)
    requires AddDefaultOptions(payload, debug).Ok?
    ensures AddDefaultOptions(AddDefaultOptions(payload, debug).value, debug)
            == AddDefaultOptions(payload, debug)
  {
    var r := AddDefaultOptions(payload, debug).value;
    if debug {
      assert r["options"].fields["debug" := JBool(true)] == r["options"].fields;
      assert r["options" := JObj(r["options"].fields)] == r;
    }
  }

  /** A payload the validator accepts stays acceptable after the merge, and
      the merge fails on it only for `options: null` with debug set. The
      merged options then read debug=True whenever debug was requested. */
  lemma AddDefaultOptionsKeepsValid(payload: map<string, Json>, debug: bool)
    requires Validators.ValidPayload(payload)
    ensures AddDefaultOptions(payload, debug).Err? <==> debug && "options" in payload && payload["options"] == JNull
    ensures AddDefaultOptions(payload, debug).Ok? ==>
              Validators.ValidPayload(AddDefaultOptions(payload, debug).value)
  {
    var r := AddDefaultOptions(payload, debug);
    if r.Ok? {
      var v := r.value;
      assert v["data"] == payload["data"];
      if "organization_ids" in payload {
        assert v["organization_ids"] == payload["organization_ids"];
      }
    }
  }

  // ------------------------------------------------ the caller's dict, aliased

  /** The merged payload together with the caller's payload as it looks after
      the call. */
  datatype Call = Call(merged: map<string, Json>, callerAfter: map<string, Json>)

  /** `add_default_options` as written: `payload.copy()` is shallow, so an
      existing `options` dict is the caller's own object and
      `result["options"]["debug"] = True` writes into it. */
  function AddDefaultOptionsShared(payload: map<string, Json>, debug: bool): (r: Result<Call, PyError>)
    ensures r.Ok? <==> AddDefaultOptions(payload, debug).Ok?
    ensures r.Ok? ==> r.value.merged == AddDefaultOptions(payload, debug).value
    ensures r.Ok? && "options" in payload ==> r.value.callerAfter == r.value.merged
  {
    var merged :- AddDefaultOptions(payload, debug);
    if "options" in payload then Ok(Call(merged, merged)) else Ok(Call(merged, payload))
  }

  /** The shared dict leaks: a caller whose options do not already say
      debug=True finds its own options changed after a debug send. */
  lemma SharedOptionsMutateCaller(payload: map<string, Json>)
    requires "options" in payload && payload["options"].JObj?
    requires "debug" !in payload["options"].fields || payload["options"].fields["debug"] != JBool(true)
    ensures AddDefaultOptionsShared(payload, true).Ok?
    ensures AddDefaultOptionsShared(payload, true).value.callerAfter != payload
  {
    var r := AddDefaultOptionsShared(payload, true).value;
    assert r.callerAfter["options"].fields["debug"] == JBool(true);
  }

  /** The concrete case: `{"data": [], "options": {"debug": False}}`. */
  lemma SharedOptionsExample()
    ensures var p := map["data" := JArr([]), "options" := JObj(map["debug" := JBool(false)])];
            AddDefaultOptionsShared(p, true).Ok?
            && AddDefaultOptionsShared(p, true).value.callerAfter["options"]
               == JObj(map["debug" := JBool(true)])
  {
    var p := map["data" := JArr([]), "options" := JObj(map["debug" := JBool(false)])];
    SharedOptionsMutateCaller(p);
    assert map["debug" := JBool(false)]["debug" := JBool(true)] == map["debug" := JBool(true)];
  }

  /** The intended behaviour ("make a copy to avoid modifying the original"):
      the nested options dict is copied before the debug flag is written, so
      the caller's payload is left as it was. */
  function AddDefaultOptionsCopied(payload: map<string, Json>, debug: bool): (r: Result<Call, PyError>)
    ensures r.Ok? <==> AddDefaultOptions(payload, debug).Ok?
    ensures r.Ok? ==> r.value.merged == AddDefaultOptions(payload, debug).value
    ensures r.Ok? ==> r.value.callerAfter == payload
  {
    var merged :- AddDefaultOptions(payload, debug);
    Ok(Call(merged, payload))
  }

  /** The two versions differ only in what the caller sees afterwards, and
      only when the caller's options are rewritten. */
  lemma CopiedAgreesWithShared(payload: map<string, Json>, debug: bool)
    ensures AddDefaultOptionsCopied(payload, debug).Ok? == AddDefaultOptionsShared(payload, debug).Ok?
    ensures AddDefaultOptionsCopied(payload, debug).Ok? ==>
              AddDefaultOptionsCopied(payload, debug).value.merged
              == AddDefaultOptionsShared(payload, debug).value.merged
    ensures !debug && AddDefaultOptionsShared(payload, debug).Ok? ==>
              AddDefaultOptionsShared(payload, debug).value.callerAfter == payload
  {
  }
}
