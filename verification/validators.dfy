/** The Pydantic data contract of sendDetections/validators.py and its
    `validate_payload`. `Issues` lists every error Pydantic reports, in the
    order it reports them (fields in declaration order, list items in index
    order, a model's after-validator only once its fields are valid);
    `ValidPayload` states the same contract declaratively. */
module Validators {
  import opened Wrappers
  import opened Json
  import Text

  datatype LocPart = Key(name: string) | Index(i: nat)

  datatype IssueKind =
    | Missing
    | NotString
    | NotBool
    | NotList
    | NotModel(model: string)
    | TooShort
    | SubTypeRequired

  /** One entry of `ValidationError.errors()`: its `loc` and its kind. */
  datatype Issue = Issue(loc: seq<LocPart>, kind: IssueKind)

  // ---------------------------------------------------------------- errors

  /** A `str` field (`Optional[str]` when not required). */
  function StrField(m: map<string, Json>, key: string, required: bool, at: seq<LocPart>): seq<Issue> {
    if key !in m then (if required then [Issue(at + [Key(key)], Missing)] else [])
    else if m[key].JStr? || (!required && m[key].JNull?) then []
    else [Issue(at + [Key(key)], NotString)]
  }

  /** A `bool` field with a default. */
  function BoolField(m: map<string, Json>, key: string, at: seq<LocPart>): seq<Issue> {
    if key !in m || m[key].JBool? then [] else [Issue(at + [Key(key)], NotBool)]
  }

  function StrItems(xs: seq<Json>, at: seq<LocPart>, j: nat): seq<Issue>
    decreases |xs| - j
  {
    if j >= |xs| then []
    else (if xs[j].JStr? then [] else [Issue(at + [Index(j)], NotString)]) + StrItems(xs, at, j + 1)
  }

  /** An `Optional[List[str]]` field. */
  function StrListField(m: map<string, Json>, key: string, at: seq<LocPart>): seq<Issue> {
    if key !in m || m[key].JNull? then []
    else if m[key].JArr? then StrItems(m[key].items, at + [Key(key)], 0)
    else [Issue(at + [Key(key)], NotList)]
  }

  function IocIssues(v: Json, at: seq<LocPart>): seq<Issue> {
    if !v.JObj? then [Issue(at, NotModel("IoC"))]
    else StrField(v.fields, "type", true, at) + StrField(v.fields, "value", true, at)
         + StrField(v.fields, "source_type", false, at) + StrField(v.fields, "field", false, at)
  }

  /** `not self.sub_type` is false: a non-empty string. */
  predicate HasSubType(m: map<string, Json>) {
    "sub_type" in m && m["sub_type"].JStr? && |m["sub_type"].s| > 0
  }

  function DetectionIssues(v: Json, at: seq<LocPart>): seq<Issue> {
    if !v.JObj? then [Issue(at, NotModel("Detection"))]
    else
      var fieldIssues := StrField(v.fields, "type", true, at) + StrField(v.fields, "id", false, at)
                         + StrField(v.fields, "name", false, at) + StrField(v.fields, "sub_type", false, at);
      if |fieldIssues| > 0 then fieldIssues
      else if v.fields["type"] == JStr("detection_rule") && !HasSubType(v.fields) then [Issue(at, SubTypeRequired)]
      else []
  }

  function IncidentIssues(m: map<string, Json>, at: seq<LocPart>): seq<Issue> {
    if "incident" !in m || m["incident"].JNull? then []
    else
      var here := at + [Key("incident")];
      if !m["incident"].JObj? then [Issue(here, NotModel("Incident"))]
      else
        var f := m["incident"].fields;
        StrField(f, "id", false, here) + StrField(f, "name", false, here) + StrField(f, "type", false, here)
  }

  function RequiredModel(m: map<string, Json>, key: string, at: seq<LocPart>): seq<Issue> {
    if key !in m then [Issue(at + [Key(key)], Missing)]
    else if key == "ioc" then IocIssues(m[key], at + [Key(key)])
    else DetectionIssues(m[key], at + [Key(key)])
  }

  function EntryIssues(v: Json, i: nat): seq<Issue> {
    var at := [Key("data"), Index(i)];
    if !v.JObj? then [Issue(at, NotModel("DataEntry"))]
    else
      RequiredModel(v.fields, "ioc", at) + RequiredModel(v.fields, "detection", at)
      + StrField(v.fields, "timestamp", false, at) + IncidentIssues(v.fields, at)
      + StrListField(v.fields, "mitre_codes", at) + StrListField(v.fields, "malwares", at)
  }

  function EntriesIssues(xs: seq<Json>, k: nat): seq<Issue>
    decreases |xs| - k
  {
    if k >= |xs| then [] else EntryIssues(xs[k], k) + EntriesIssues(xs, k + 1)
  }

  /** `data: List[DataEntry] = Field(..., min_length=1)` */
  function DataIssues(p: map<string, Json>): seq<Issue> {
    if "data" !in p then [Issue([Key("data")], Missing)]
    else if !p["data"].JArr? then [Issue([Key("data")], NotList)]
    else if |p["data"].items| == 0 then [Issue([Key("data")], TooShort)]
    else EntriesIssues(p["data"].items, 0)
  }

  /** `options: Optional[ApiOptions] = None` */
  function OptionsIssues(p: map<string, Json>): seq<Issue> {
    if "options" !in p || p["options"].JNull? then []
    else if !p["options"].JObj? then [Issue([Key("options")], NotModel("ApiOptions"))]
    else BoolField(p["options"].fields, "debug", [Key("options")])
         + BoolField(p["options"].fields, "summary", [Key("options")])
  }

  /** All errors `ApiPayload(**payload)` reports, in order. */
  function Issues(p: map<string, Json>): seq<Issue> {
    DataIssues(p) + OptionsIssues(p) + StrListField(p, "organization_ids", [])
  }

  // ------------------------------------------------------ the contract itself

  predicate StrOk(m: map<string, Json>, key: string, required: bool) {
    if key in m then m[key].JStr? || (!required && m[key].JNull?) else !required
  }

  predicate StrListOk(m: map<string, Json>, key: string) {
    key !in m || m[key].JNull?
    || (m[key].JArr? && forall j :: 0 <= j < |m[key].items| ==> m[key].items[j].JStr?)
  }

  predicate IocOk(v: Json) {
    v.JObj? && StrOk(v.fields, "type", true) && StrOk(v.fields, "value", true)
    && StrOk(v.fields, "source_type", false) && StrOk(v.fields, "field", false)
  }

  predicate DetectionOk(v: Json) {
    && v.JObj? && StrOk(v.fields, "type", true) && StrOk(v.fields, "id", false)
    && StrOk(v.fields, "name", false) && StrOk(v.fields, "sub_type", false)
    && (v.fields["type"] == JStr("detection_rule") ==> HasSubType(v.fields))
  }

  predicate IncidentOk(m: map<string, Json>) {
    "incident" !in m || m["incident"].JNull?
    || (m["incident"].JObj? && StrOk(m["incident"].fields, "id", false)
        && StrOk(m["incident"].fields, "name", false) && StrOk(m["incident"].fields, "type", false))
  }

  predicate EntryOk(v: Json) {
    && v.JObj?
    && "ioc" in v.fields && IocOk(v.fields["ioc"])
    && "detection" in v.fields && DetectionOk(v.fields["detection"])
    && StrOk(v.fields, "timestamp", false) && IncidentOk(v.fields)
    && StrListOk(v.fields, "mitre_codes") && StrListOk(v.fields, "malwares")
  }

  predicate OptionsOk(p: map<string, Json>) {
    "options" !in p || p["options"].JNull?
    || (p["options"].JObj?
        && ("debug" !in p["options"].fields || p["options"].fields["debug"].JBool?)
        && ("summary" !in p["options"].fields || p["options"].fields["summary"].JBool?))
  }

  /** A payload Pydantic accepts: a non-empty `data` list of well-formed
      entries, and well-typed optional `options` and `organization_ids`. */
  predicate ValidPayload(p: map<string, Json>) {
    && "data" in p && p["data"].JArr? && |p["data"].items| >= 1
    && (forall i :: 0 <= i < |p["data"].items| ==> EntryOk(p["data"].items[i]))
    && OptionsOk(p) && StrListOk(p, "organization_ids")
  }

  lemma {:induction false} StrItemsEmpty(xs: seq<Json>, at: seq<LocPart>, j: nat)
    ensures StrItems(xs, at, j) == [] <==> forall k :: j <= k < |xs| ==> xs[k].JStr?
    decreases |xs| - j
  {
    if j < |xs| {
      StrItemsEmpty(xs, at, j + 1);
    }
  }

  lemma StrListEmpty(m: map<string, Json>, key: string, at: seq<LocPart>)
    ensures StrListField(m, key, at) == [] <==> StrListOk(m, key)
  {
    if key in m && m[key].JArr? {
      StrItemsEmpty(m[key].items, at + [Key(key)], 0);
    }
  }

  lemma EntryEmpty(v: Json, i: nat)
    ensures EntryIssues(v, i) == [] <==> EntryOk(v)
  {
    if v.JObj? {
      var at := [Key("data"), Index(i)];
      StrListEmpty(v.fields, "mitre_codes", at);
      StrListEmpty(v.fields, "malwares", at);
    }
  }

  lemma {:induction false} EntriesEmpty(xs: seq<Json>, k: nat)
    ensures EntriesIssues(xs, k) == [] <==> forall i :: k <= i < |xs| ==> EntryOk(xs[i])
    decreases |xs| - k
  {
    if k < |xs| {
      var head, tail := EntryIssues(xs[k], k), EntriesIssues(xs, k + 1);
      assert EntriesIssues(xs, k) == head + tail;
      assert head + tail == [] <==> head == [] && tail == [] by {
        if head + tail == [] {
          assert |head + tail| == |head| + |tail|;
        }
      }
      EntryEmpty(xs[k], k);
      EntriesEmpty(xs, k + 1);
    }
  }

  /** Pydantic reports no error exactly for the payloads of the contract. */
  lemma IssuesEmptyIffValid(p: map<string, Json>)
    ensures Issues(p) == [] <==> ValidPayload(p)
  {
    StrListEmpty(p, "organization_ids", []);
    if "data" in p && p["data"].JArr? {
      EntriesEmpty(p["data"].items, 0);
    }
  }

  // ------------------------------------------------------- validate_payload

  /** The `ValueError` text of the `Detection` after-validator. */
  const SubTypeRuleText := "'" + "sub_type" + "' is required when type is 'detection_rule'"

  function IssueKindText(k: IssueKind): string {
    match k
    case Missing => "Field required"
    case NotString => "Input should be a valid string"
    case NotBool => "Input should be a valid boolean"
    case NotList => "Input should be a valid list"
    case NotModel(name) => "Input should be a valid dictionary or instance of " + name
    case TooShort => "List should have at least 1 item after validation, not 0"
    case SubTypeRequired => "Value error, " + SubTypeRuleText
  }

  function LocText(part: LocPart): string {
    match part
    case Key(k) => k
    case Index(i) => Text.NatToString(i)
  }

  function LocTexts(loc: seq<LocPart>): (r: seq<string>)
    ensures |r| == |loc|
    ensures forall i :: 0 <= i < |loc| ==> r[i] == LocText(loc[i])
  {
    seq(|loc|, i requires 0 <= i < |loc| => LocText(loc[i]))
  }

  /** The text `validate_payload` builds from `e.errors()`: only the first
      error, its location joined with dots. */
  function FirstErrorMessage(errors: seq<Issue>): (r: string)
    ensures |errors| == 0 ==> r == "Unknown validation error"
    ensures |errors| > 0 ==>
      r == "Validation error at '" + Text.Join(LocTexts(errors[0].loc), ".") + "': "
           + IssueKindText(errors[0].kind)
  {
    if |errors| == 0 then "Unknown validation error"
    else
      var e := errors[0];
      "Validation error at '" + Text.Join(LocTexts(e.loc), ".") + "': " + IssueKindText(e.kind)
  }

  /** `validate_payload(payload)`: None when the payload is accepted,
      otherwise the message of the first error. */
  function ValidatePayload(p: map<string, Json>): (r: Option<string>)
    ensures r.None? <==> ValidPayload(p)
    ensures r.Some? ==> |Issues(p)| > 0 && r.value == FirstErrorMessage(Issues(p))
  {
    IssuesEmptyIffValid(p);
    if |Issues(p)| == 0 then None else Some(FirstErrorMessage(Issues(p)))
  }

  /** Whatever else is wrong, a missing, non-list or empty `data` is the
      error reported. */
  lemma DataReportedFirst(p: map<string, Json>)
    requires "data" !in p || !p["data"].JArr? || |p["data"].items| == 0
    ensures ValidatePayload(p).Some?
    ensures Issues(p)[0].loc == [Key("data")]
    ensures ValidatePayload(p).value == "Validation error at 'data': " + IssueKindText(Issues(p)[0].kind)
  {
    assert Issues(p)[0] == DataIssues(p)[0];
    assert LocTexts([Key("data")]) == ["data"];
  }

  /** A payload with one entry built from the given strings. */
  function OneEntry(iocType: string, iocValue: string, detection: map<string, Json>,
                    timestamp: Option<string>): map<string, Json>
  {
    var ioc := JObj(map["type" := JStr(iocType), "value" := JStr(iocValue)]);
    var entry := map["ioc" := ioc, "detection" := JObj(detection)];
    map["data" := JArr([JObj(if timestamp.Some? then entry["timestamp" := JStr(timestamp.value)] else entry)])]
  }

  /** Validity does not look at the text of `ioc.type`, `ioc.value` or
      `timestamp`: any strings, empty ones included, are accepted. */
  lemma ScalarTextIsNotChecked(iocType: string, iocValue: string, detectionType: string, timestamp: Option<string>)
    requires detectionType != "detection_rule"
    ensures ValidatePayload(OneEntry(iocType, iocValue, map["type" := JStr(detectionType)], timestamp)).None?
  {
    var p := OneEntry(iocType, iocValue, map["type" := JStr(detectionType)], timestamp);
    assert EntryOk(p["data"].items[0]);
  }

  /** `detection_rule` needs a non-empty `sub_type`; the error is reported at
      the detection itself. */
  lemma DetectionRuleNeedsSubType(subType: Option<string>)
    ensures var d := if subType.Some? then map["type" := JStr("detection_rule"), "sub_type" := JStr(subType.value)]
                     else map["type" := JStr("detection_rule")];
            var p := OneEntry("ip", "1.2.3.4", d, None);
            && (ValidatePayload(p).None? <==> subType.Some? && |subType.value| > 0)
            && (ValidatePayload(p).Some? ==>
                  Issues(p) == [Issue([Key("data"), Index(0), Key("detection")], SubTypeRequired)])
  {
    var d := if subType.Some? then map["type" := JStr("detection_rule"), "sub_type" := JStr(subType.value)]
             else map["type" := JStr("detection_rule")];
    OneDetectionIssues(d);
    RuleIssues(subType, [Key("data"), Index(0), Key("detection")]);
  }

  /** In a one-entry payload whose ioc is well formed, the only issues are
      those of the detection. */
  lemma OneDetectionIssues(d: map<string, Json>)
    ensures Issues(OneEntry("ip", "1.2.3.4", d, None)) == DetectionIssues(JObj(d), [Key("data"), Index(0), Key("detection")])
  {
    var p := OneEntry("ip", "1.2.3.4", d, None);
    var e := p["data"].items[0];
    var at := [Key("data"), Index(0)];
    assert EntriesIssues(p["data"].items, 1) == [];
    assert Issues(p) == EntryIssues(e, 0);
    OneEntryIssues(d);
  }

  lemma OneEntryIssues(d: map<string, Json>)
    ensures EntryIssues(JObj(map["ioc" := JObj(map["type" := JStr("ip"), "value" := JStr("1.2.3.4")]), "detection" := JObj(d)]), 0)
            == DetectionIssues(JObj(d), [Key("data"), Index(0), Key("detection")])
  {
    var e := JObj(map["ioc" := JObj(map["type" := JStr("ip"), "value" := JStr("1.2.3.4")]), "detection" := JObj(d)]);
    var at := [Key("data"), Index(0)];
    assert RequiredModel(e.fields, "ioc", at) == [];
    assert RequiredModel(e.fields, "detection", at) == DetectionIssues(JObj(d), at + [Key("detection")]);
    assert StrField(e.fields, "timestamp", false, at) == [];
    assert IncidentIssues(e.fields, at) == [];
    assert StrListField(e.fields, "mitre_codes", at) == [];
    assert StrListField(e.fields, "malwares", at) == [];
    assert EntryIssues(e, 0) == DetectionIssues(JObj(d), at + [Key("detection")]);
    assert at + [Key("detection")] == [Key("data"), Index(0), Key("detection")];
  }

  /** A `detection_rule` detection has one issue, at the detection, exactly
      when its `sub_type` is missing or empty. */
  lemma RuleIssues(subType: Option<string>, at: seq<LocPart>)
    ensures var d := if subType.Some? then map["type" := JStr("detection_rule"), "sub_type" := JStr(subType.value)]
                     else map["type" := JStr("detection_rule")];
            DetectionIssues(JObj(d), at) == (if subType.Some? && |subType.value| > 0 then [] else [Issue(at, SubTypeRequired)])
  {
  }

  /** The playbook entry of the design's scenario A is accepted. */
  lemma ScenarioAccepted()
    ensures ValidatePayload(OneEntry("ip", "1.2.3.4", map["type" := JStr("playbook"), "id" := JStr("t1")], None)).None?
  {
    var p := OneEntry("ip", "1.2.3.4", map["type" := JStr("playbook"), "id" := JStr("t1")], None);
    assert EntryOk(p["data"].items[0]);
  }

  lemma DetectionLocText()
    ensures Text.Join(LocTexts([Key("data"), Index(0), Key("detection")]), ".") == "data.0.detection"
  {
    DetectionLocTexts();
    assert Text.Join(["detection"], ".") == "detection";
    assert Text.Join(["0", "detection"], ".") == "0.detection";
  }

  lemma DetectionLocTexts()
    ensures LocTexts([Key("data"), Index(0), Key("detection")]) == ["data", "0", "detection"]
  {
    assert Text.NatToString(0) == "0";
  }

  lemma SubTypeMessageNamesField()
    ensures Text.IsSubstring("sub_type", FirstErrorMessage([Issue([Key("data"), Index(0), Key("detection")], SubTypeRequired)]))
  {
    var name := "sub_type";
    assert Text.OccursAt(name, name, 0);
    var tail := "' is required when type is 'detection_rule'";
    Text.SubstringInContext(name, "Value error, '", name, tail);
    assert IssueKindText(SubTypeRequired) == "Value error, '" + name + tail;
    var issue := Issue([Key("data"), Index(0), Key("detection")], SubTypeRequired);
    var prefix := "Validation error at '" + Text.Join(LocTexts(issue.loc), ".") + "': ";
    Text.SubstringInContext(name, prefix, IssueKindText(SubTypeRequired), "");
    assert prefix + IssueKindText(SubTypeRequired) + "" == FirstErrorMessage([issue]);
  }

  /** Scenario B: a `detection_rule` without `sub_type` is refused with a
      message that names `sub_type`. */
  lemma ScenarioSubTypeMessage()
    ensures var r := ValidatePayload(OneEntry("ip", "1.2.3.4", map["type" := JStr("detection_rule")], None));
            r.Some? && Text.IsSubstring("sub_type", r.value)
  {
    DetectionRuleNeedsSubType(None);
    SubTypeMessageNamesField();
  }

  /** `ApiOptions` field defaults: debug False, summary True. */
  function OptionValues(options: map<string, Json>): (r: (bool, bool))
    requires OptionsOk(map["options" := JObj(options)])
    ensures "debug" !in options ==> !r.0
    ensures "summary" !in options ==> r.1
    ensures "debug" in options ==> r.0 == options["debug"].b
    ensures "summary" in options ==> r.1 == options["summary"].b
  {
    (if "debug" in options then options["debug"].b else false,
     if "summary" in options then options["summary"].b else true)
  }
}
