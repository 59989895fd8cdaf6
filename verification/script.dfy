/** The older stand-alone checker of sendDetection_script.py: key-presence
    checks in a fixed order over whatever JSON value was loaded, and the
    `ensure_debug_mode` step that runs after it. Python's `in` and `x[k]`
    are taken with their real semantics, so a value of the wrong shape can
    raise instead of producing a message. */
module Script {
  import opened Wrappers
  import opened Json
  import Text
  import Validators

  const MissingData := "Required field 'data' is missing from the payload."
  const EmptyData := "'data' field must be a non-empty array."

  /** `f"Data entry {i+1}: "` */
  function EntryPrefix(n: nat): string {
    "Data entry " + Text.NatToString(n) + ": "
  }

  /** `key in v` is true (and did not raise). */
  predicate HasKey(v: Json, key: string) {
    Contains(v, key) == Ok(true)
  }

  /** The checks of one entry, numbered `n` (1-based) in messages. */
  function CheckEntry(entry: Json, n: nat): Result<Option<string>, PyError> {
    var hasIoc :- Contains(entry, "ioc");
    if !hasIoc then Ok(Some(EntryPrefix(n) + "Required field 'ioc' is missing."))
    else
      var ioc :- Subscript(entry, "ioc");
      var hasType :- Contains(ioc, "type");
      if !hasType then Ok(Some(EntryPrefix(n) + "Required field 'type' is missing from 'ioc'."))
      else
        var hasValue :- Contains(ioc, "value");
        if !hasValue then Ok(Some(EntryPrefix(n) + "Required field 'value' is missing from 'ioc'."))
        else
          var hasDetection :- Contains(entry, "detection");
          if !hasDetection then Ok(Some(EntryPrefix(n) + "Required field 'detection' is missing."))
          else
            var detection :- Subscript(entry, "detection");
            var hasDetType :- Contains(detection, "type");
            if !hasDetType then Ok(Some(EntryPrefix(n) + "Required field 'type' is missing from 'detection'."))
            else
              var detType :- Subscript(detection, "type");
              if detType != JStr("detection_rule") then Ok(None)
              else
                var hasSubType :- Contains(detection, "sub_type");
                if !hasSubType then Ok(Some(EntryPrefix(n) + "'sub_type' is required for 'detection_rule' type."))
                else Ok(None)
  }

  /** The `for i, entry in enumerate(data)` loop from index `k` on. */
  function CheckEntries(xs: seq<Json>, k: nat): Result<Option<string>, PyError>
    decreases |xs| - k
  {
    if k >= |xs| then Ok(None)
    else
      var r :- CheckEntry(xs[k], k + 1);
      if r.Some? then Ok(r) else CheckEntries(xs, k + 1)
  }

  /** `validate_payload(payload)` of the script. */
  function ScriptValidate(payload: Json): Result<Option<string>, PyError> {
    var hasData :- Contains(payload, "data");
    if !hasData then Ok(Some(MissingData))
    else
      var data :- Subscript(payload, "data");
      if !data.JArr? || |data.items| == 0 then Ok(Some(EmptyData))
      else CheckEntries(data.items, 0)
  }

  // ------------------------------------------------------ the contract itself

  /** An entry none of the checks objects to. Only presence is tested: the
      `ioc` may be any value in which `type` and `value` are found, and
      empty strings pass. */
  predicate EntryPasses(e: Json) {
    && e.JObj?
    && "ioc" in e.fields && HasKey(e.fields["ioc"], "type") && HasKey(e.fields["ioc"], "value")
    && "detection" in e.fields && e.fields["detection"].JObj?
    && "type" in e.fields["detection"].fields
    && (e.fields["detection"].fields["type"] == JStr("detection_rule")
        ==> "sub_type" in e.fields["detection"].fields)
  }

  predicate ScriptAccepts(payload: Json) {
    && payload.JObj? && "data" in payload.fields
    && payload.fields["data"].JArr? && |payload.fields["data"].items| > 0
    && forall i :: 0 <= i < |payload.fields["data"].items| ==> EntryPasses(payload.fields["data"].items[i])
  }

  /** The `data` checks come before any entry is looked at. */
  lemma DataChecksFirst(p: map<string, Json>)
    ensures "data" !in p ==> ScriptValidate(JObj(p)) == Ok(Some(MissingData))
    ensures "data" in p && (!p["data"].JArr? || |p["data"].items| == 0) ==>
              ScriptValidate(JObj(p)) == Ok(Some(EmptyData))
    ensures "data" in p && p["data"].JArr? && |p["data"].items| > 0 ==>
              ScriptValidate(JObj(p)) == CheckEntries(p["data"].items, 0)
  {
  }

  lemma EntryPassesIff(e: Json, n: nat)
    ensures CheckEntry(e, n) == Ok(None) <==> EntryPasses(e)
  {
    if e.JObj? && "ioc" in e.fields {
      var ioc := e.fields["ioc"];
      if HasKey(ioc, "type") && HasKey(ioc, "value") && "detection" in e.fields {
        var d := e.fields["detection"];
        if d.JObj? {
        } else {
          assert CheckEntry(e, n) != Ok(None) by {
            if Contains(d, "type") == Ok(true) {
              assert Subscript(d, "type").Err?;
            }
          }
        }
      }
    }
  }

  lemma {:induction false} EntriesPassIff(xs: seq<Json>, k: nat)
    ensures CheckEntries(xs, k) == Ok(None) <==> forall i :: k <= i < |xs| ==> EntryPasses(xs[i])
    decreases |xs| - k
  {
    if k < |xs| {
      EntryPassesIff(xs[k], k + 1);
      EntriesPassIff(xs, k + 1);
      assert (forall i :: k <= i < |xs| ==> EntryPasses(xs[i]))
         <==> EntryPasses(xs[k]) && forall i :: k + 1 <= i < |xs| ==> EntryPasses(xs[i]);
    }
  }

  /** The script reports nothing exactly for the payloads every check lets
      through. */
  lemma ScriptAcceptsIff(payload: Json)
    ensures ScriptValidate(payload) == Ok(None) <==> ScriptAccepts(payload)
  {
    if payload.JObj? && "data" in payload.fields && payload.fields["data"].JArr? {
      EntriesPassIff(payload.fields["data"].items, 0);
    }
  }

  /** Entries are checked in order: when every entry before `i` passes and
      entry `i` does not, the outcome is that of entry `i`, with the
      1-based number `i + 1`. */
  lemma {:induction false} FirstFailingEntry(xs: seq<Json>, k: nat, i: nat)
    requires k <= i < |xs|
    requires forall j :: k <= j < i ==> EntryPasses(xs[j])
    requires CheckEntry(xs[i], i + 1) != Ok(None)
    ensures CheckEntries(xs, k) == CheckEntry(xs[i], i + 1)
    decreases i - k
  {
    if k < i {
      EntryPassesIff(xs[k], k + 1);
      FirstFailingEntry(xs, k + 1, i);
    }
  }

  /** Every payload the Pydantic contract accepts also passes the script's
      checks. */
  lemma PydanticValidPassesScript(p: map<string, Json>)
    requires Validators.ValidPayload(p)
    ensures ScriptValidate(JObj(p)) == Ok(None)
  {
    var xs := p["data"].items;
    forall i | 0 <= i < |xs|
      ensures EntryPasses(xs[i])
    {
      assert Validators.EntryOk(xs[i]);
    }
    ScriptAcceptsIff(JObj(p));
  }

  /** The converse fails: an empty `sub_type` passes the presence check but
      not the Pydantic rule. */
  lemma EmptySubTypeOnlyPassesScript()
    ensures var d := map["type" := JStr("detection_rule"), "sub_type" := JStr("")];
            var p := Validators.OneEntry("ip", "1.2.3.4", d, None);
            ScriptValidate(JObj(p)) == Ok(None) && Validators.ValidatePayload(p).Some?
  {
    var d := map["type" := JStr("detection_rule"), "sub_type" := JStr("")];
    var p := Validators.OneEntry("ip", "1.2.3.4", d, None);
    assert EntryPasses(p["data"].items[0]);
    ScriptAcceptsIff(JObj(p));
    assert !Validators.HasSubType(d);
    assert !Validators.EntryOk(p["data"].items[0]);
  }

  // ------------------------------------------------------- ensure_debug_mode

  /** `ensure_debug_mode(payload, debug_enabled)`: creates `options` when
      absent, then sets `options["debug"] = True` when the flag is on or
      when `debug` is not yet in the options. The payload is updated in
      place and returned, so the result is the updated payload. */
  function EnsureDebugMode(payload: map<string, Json>, debugEnabled: bool): (r: Result<map<string, Json>, PyError>)
    ensures r.Ok? ==> "options" in r.value && r.value.Keys == payload.Keys + {"options"}
    ensures r.Ok? ==> forall k :: k in payload && k != "options" ==> r.value[k] == payload[k]
    ensures r.Err? <==>
      "options" in payload && !payload["options"].JObj?
      && (debugEnabled || !HasKey(payload["options"], "debug"))
  {
    var options := if "options" in payload then payload["options"] else JObj(map[]);
    if debugEnabled then
      var updated :- SetItem(options, "debug", JBool(true));
      Ok(payload["options" := updated])
    else
      var hasDebug :- Contains(options, "debug");
      if hasDebug then Ok(payload["options" := options])
      else
        var updated :- SetItem(options, "debug", JBool(true));
        Ok(payload["options" := updated])
  }

  /** On a dict (or absent) `options`: the flag forces debug on, otherwise a
      present `debug` is kept and an absent one becomes True; other option
      keys are unchanged. */
  lemma EnsureDebugModeEffect(payload: map<string, Json>, debugEnabled: bool)
    requires "options" !in payload || payload["options"].JObj?
    ensures var r := EnsureDebugMode(payload, debugEnabled);
            var before := if "options" in payload then payload["options"].fields else map[];
            && r.Ok? && r.value["options"].JObj?
            && var after := r.value["options"].fields;
            && after.Keys == before.Keys + {"debug"}
            && (forall k :: k in before && k != "debug" ==> after[k] == before[k])
            && (debugEnabled ==> after["debug"] == JBool(true))
            && (!debugEnabled && "debug" in before ==> after["debug"] == before["debug"])
            && (!debugEnabled && "debug" !in before ==> after["debug"] == JBool(true))
  {
  }

  /** Running the step twice changes nothing more. */
  lemma EnsureDebugModeIdempotent(payload: map<string, Json>, debugEnabled: bool)
    requires EnsureDebugMode(payload, debugEnabled).Ok?
    ensures EnsureDebugMode(EnsureDebugMode(payload, debugEnabled).value, debugEnabled)
            == EnsureDebugMode(payload, debugEnabled)
  {
    var once := EnsureDebugMode(payload, debugEnabled).value;
    var opts := once["options"];
    if opts.JObj? {
      assert "debug" in opts.fields;
      if debugEnabled {
        assert opts.fields["debug"] == JBool(true);
        assert opts.fields["debug" := JBool(true)] == opts.fields;
      }
    } else {
      assert !debugEnabled && HasKey(opts, "debug");
    }
    assert once["options" := opts] == once;
  }
}
