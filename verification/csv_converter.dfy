/** CSVConverter of sendDetections/csv_converter.py: one CSV row (a
    `csv.DictReader` row, column name to text) becomes one data entry, and
    `csv_to_payload` folds the rows of a file in order into `{"data": [...]}`
    and validates the result. */
module CsvConverter {
  import opened Wrappers
  import opened Json
  import Text
  import Validators
  import Errors

  type Row = map<string, string>

  /** `row.get(name, '')` */
  function Column(row: Row, name: string): string {
    if name in row then row[name] else ""
  }

  /** The IoC type read off the lower-cased Source column: the first of the
      fragments that occurs in it, or "" when none does. */
  function InferType(source: string): (t: string)
    ensures t in {"ip", "domain", "hash", "url", "vulnerability", ""}
    ensures t == "" <==>
      !Text.IsSubstring("ip", source) && !Text.IsSubstring("domain", source) && !Text.IsSubstring("hash", source)
      && !Text.IsSubstring("url", source) && !Text.IsSubstring("vuln", source)
    ensures t == "ip" <==> Text.IsSubstring("ip", source)
    ensures t == "domain" <==> !Text.IsSubstring("ip", source) && Text.IsSubstring("domain", source)
    ensures t == "hash" <==>
      !Text.IsSubstring("ip", source) && !Text.IsSubstring("domain", source) && Text.IsSubstring("hash", source)
    ensures t == "url" <==>
      !Text.IsSubstring("ip", source) && !Text.IsSubstring("domain", source) && !Text.IsSubstring("hash", source)
      && Text.IsSubstring("url", source)
    ensures t == "vulnerability" <==>
      !Text.IsSubstring("ip", source) && !Text.IsSubstring("domain", source) && !Text.IsSubstring("hash", source)
      && !Text.IsSubstring("url", source) && Text.IsSubstring("vuln", source)
  {
    if Text.IsSubstring("ip", source) then "ip"
    else if Text.IsSubstring("domain", source) then "domain"
    else if Text.IsSubstring("hash", source) then "hash"
    else if Text.IsSubstring("url", source) then "url"
    else if Text.IsSubstring("vuln", source) then "vulnerability"
    else ""
  }

  /** The Source fragments in the order they are tried, each with the type
      it selects. */
  const TypeKeywords: seq<(string, string)> :=
    [("ip", "ip"), ("domain", "domain"), ("hash", "hash"), ("url", "url"), ("vuln", "vulnerability")]

  /** The type of the first entry of `table` whose fragment occurs in
      `source`, or "" when none does. */
  function FirstKeyword(table: seq<(string, string)>, source: string): string {
    if |table| == 0 then ""
    else if Text.IsSubstring(table[0].0, source) then table[0].1
    else FirstKeyword(table[1..], source)
  }

  /** `InferType` is the first-match lookup in the keyword table. */
  lemma InferTypeIsFirstKeyword(source: string)
    ensures InferType(source) == FirstKeyword(TypeKeywords, source)
  {
    var t4 := [("vuln", "vulnerability")];
    var t3 := [("url", "url")] + t4;
    var t2 := [("hash", "hash")] + t3;
    var t1 := [("domain", "domain")] + t2;
    assert TypeKeywords == [("ip", "ip")] + t1;
    assert t4[1..] == [] && t3[1..] == t4 && t2[1..] == t3 && t1[1..] == t2;
    assert FirstKeyword(t4, source) == if Text.IsSubstring("vuln", source) then "vulnerability" else "";
    assert FirstKeyword(t3, source) == if Text.IsSubstring("url", source) then "url" else FirstKeyword(t4, source);
    assert FirstKeyword(t2, source) == if Text.IsSubstring("hash", source) then "hash" else FirstKeyword(t3, source);
    assert FirstKeyword(t1, source) == if Text.IsSubstring("domain", source) then "domain" else FirstKeyword(t2, source);
  }

  /** The IoC type and value of a row: `Entity ID` split at its first ':'
      when it has one, else the Entity column (falling back to Entity ID
      only when that column is absent) and a type inferred from Source. */
  function IocOf(row: Row): (r: (string, string))
  {
    var entityId := Column(row, "Entity ID");
    match Text.IndexOf(entityId, ':')
    case Some(k) => (entityId[..k], entityId[k + 1..])
    case None =>
      (InferType(Text.Lower(Column(row, "Source"))), if "Entity" in row then row["Entity"] else entityId)
  }

  /** With a ':' in Entity ID, type and value rejoin to it, and only the
      type is free of ':' — the value keeps any later ones. */
  lemma EntityIdRoundTrip(row: Row)
    requires ':' in Column(row, "Entity ID")
    ensures IocOf(row).0 + ":" + IocOf(row).1 == Column(row, "Entity ID")
    ensures ':' !in IocOf(row).0
  {
    var entityId := Column(row, "Entity ID");
    var k := Text.IndexOf(entityId, ':').value;
    assert entityId == entityId[..k] + [':'] + entityId[k + 1..];
  }

  /** Without a ':' the Entity column wins, even when it is empty. */
  lemma EntityColumnFallback(row: Row)
    requires ':' !in Column(row, "Entity ID")
    ensures IocOf(row).1 == (if "Entity" in row then row["Entity"] else Column(row, "Entity ID"))
    ensures IocOf(row).0 == InferType(Text.Lower(Column(row, "Source")))
  {
  }

  /** A list item as the comprehension keeps it: non-empty and stripped. */
  predicate IsCleanItem(x: string) {
    |x| > 0 && Text.Strip(x) == x
  }

  function CleanPieces(pieces: seq<string>): (r: seq<string>)
    ensures forall i :: 0 <= i < |r| ==> IsCleanItem(r[i])
    ensures |r| <= |pieces|
  {
    if |pieces| == 0 then []
    else
      var rest := CleanPieces(pieces[1..]);
      var head := Text.Strip(pieces[0]);
      Text.StripIdempotent(pieces[0]);
      if |head| > 0 then [head] + rest else rest
  }

  /** `[x.strip() for x in s.split(',') if x.strip()]` */
  function SplitList(s: string): (r: seq<string>)
    ensures forall i :: 0 <= i < |r| ==> |r[i]| > 0 && Text.Strip(r[i]) == r[i]
  {
    CleanPieces(Text.Split(s, ','))
  }

  lemma {:induction false} CleanPiecesKeepsClean(pieces: seq<string>)
    requires forall i :: 0 <= i < |pieces| ==> |pieces[i]| > 0 && Text.Strip(pieces[i]) == pieces[i]
    ensures CleanPieces(pieces) == pieces
  {
    if |pieces| > 0 {
      CleanPiecesKeepsClean(pieces[1..]);
      assert pieces == [pieces[0]] + pieces[1..];
    }
  }

  /** A list of non-empty, stripped, comma-free items survives being written
      as a comma-separated cell and read back. */
  lemma SplitListRoundTrip(items: seq<string>)
    requires forall i :: 0 <= i < |items| ==> |items[i]| > 0 && Text.Strip(items[i]) == items[i] && ',' !in items[i]
    ensures SplitList(Text.Join(items, ",")) == items
  {
    if |items| == 0 {
      assert Text.Split("", ',') == [""];
    } else {
      Text.JoinSplit(items, ',');
      CleanPiecesKeepsClean(items);
    }
  }

  /** The pieces never contain a comma. */
  lemma {:induction false} CleanPiecesNoSeparator(pieces: seq<string>, sep: char)
    requires forall i :: 0 <= i < |pieces| ==> sep !in pieces[i]
    ensures forall i :: 0 <= i < |CleanPieces(pieces)| ==> sep !in CleanPieces(pieces)[i]
  {
    if |pieces| > 0 {
      CleanPiecesNoSeparator(pieces[1..], sep);
    }
  }

  lemma SplitListNoComma(s: string)
    ensures forall i :: 0 <= i < |SplitList(s)| ==> ',' !in SplitList(s)[i]
  {
    CleanPiecesNoSeparator(Text.Split(s, ','), ',');
  }

  /** `d[key] = value` only when `value` is non-empty. */
  function PutIfSet(m: map<string, Json>, key: string, value: string): (r: map<string, Json>)
    ensures value == "" ==> r == m
    ensures value != "" ==> r == m[key := JStr(value)]
  {
    if value == "" then m else m[key := JStr(value)]
  }

  function StrList(xs: seq<string>): (r: seq<Json>)
    ensures |r| == |xs|
    ensures forall i :: 0 <= i < |xs| ==> r[i] == JStr(xs[i])
  {
    seq(|xs|, i requires 0 <= i < |xs| => JStr(xs[i]))
  }

  function PutListIfSet(m: map<string, Json>, key: string, xs: seq<string>): (r: map<string, Json>)
    ensures |xs| == 0 ==> r == m
    ensures |xs| > 0 ==> r == m[key := JArr(StrList(xs))]
  {
    if |xs| == 0 then m else m[key := JArr(StrList(xs))]
  }

  /** The `ioc` dict of a row whose type and value are known. */
  function IocFields(row: Row): (ioc: map<string, Json>)
    ensures "type" in ioc && "value" in ioc
    ensures ioc["type"] == JStr(IocOf(row).0) && ioc["value"] == JStr(IocOf(row).1)
    ensures "source_type" in ioc <==> Column(row, "Source Type") != ""
    ensures "source_type" in ioc ==> ioc["source_type"] == JStr(Column(row, "Source Type"))
  {
    PutIfSet(map["type" := JStr(IocOf(row).0), "value" := JStr(IocOf(row).1)], "source_type", Column(row, "Source Type"))
  }

  /** The `detection` dict: Detectors, Description (or ""), and Sub Type and
      Detection ID when non-empty. */
  function DetectionFields(row: Row): (d: map<string, Json>)
    ensures "type" in d && "name" in d
    ensures d["type"] == JStr(Column(row, "Detectors")) && d["name"] == JStr(Column(row, "Description"))
    ensures "sub_type" in d <==> Column(row, "Sub Type") != ""
    ensures "sub_type" in d ==> d["sub_type"] == JStr(Column(row, "Sub Type"))
    ensures "id" in d <==> Column(row, "Detection ID") != ""
    ensures "id" in d ==> d["id"] == JStr(Column(row, "Detection ID"))
  {
    var base := map["type" := JStr(Column(row, "Detectors")), "name" := JStr(Column(row, "Description"))];
    PutIfSet(PutIfSet(base, "sub_type", Column(row, "Sub Type")), "id", Column(row, "Detection ID"))
  }

  /** The `incident` dict: exactly the non-empty Event columns. */
  function IncidentFields(row: Row): (inc: map<string, Json>)
    ensures "type" in inc <==> Column(row, "Event Source") != ""
    ensures "id" in inc <==> Column(row, "Event ID") != ""
    ensures "name" in inc <==> Column(row, "Event Name") != ""
    ensures "type" in inc ==> inc["type"] == JStr(Column(row, "Event Source"))
    ensures "id" in inc ==> inc["id"] == JStr(Column(row, "Event ID"))
    ensures "name" in inc ==> inc["name"] == JStr(Column(row, "Event Name"))
    ensures |inc| == 0 <==> Column(row, "Event Source") == "" && Column(row, "Event ID") == "" && Column(row, "Event Name") == ""
  {
    var inc := PutIfSet(PutIfSet(PutIfSet(map[], "type", Column(row, "Event Source")),
                                 "id", Column(row, "Event ID")), "name", Column(row, "Event Name"));
    assert Column(row, "Event Source") != "" ==> "type" in inc;
    inc
  }

  /** The entry before the optional incident, from its parts. */
  function ListedFields(ioc: map<string, Json>, detection: map<string, Json>, timestamp: string,
                        malwares: seq<string>, mitreCodes: seq<string>): (e: map<string, Json>)
    ensures "incident" !in e
    ensures "ioc" in e && e["ioc"] == JObj(ioc) && "detection" in e && e["detection"] == JObj(detection)
    ensures "timestamp" in e <==> timestamp != ""
    ensures "timestamp" in e ==> e["timestamp"] == JStr(timestamp)
    ensures "malwares" in e <==> |malwares| > 0
    ensures "malwares" in e ==> e["malwares"] == JArr(StrList(malwares))
    ensures "mitre_codes" in e <==> |mitreCodes| > 0
    ensures "mitre_codes" in e ==> e["mitre_codes"] == JArr(StrList(mitreCodes))
  {
    var base := map["ioc" := JObj(ioc), "detection" := JObj(detection)];
    PutListIfSet(PutListIfSet(PutIfSet(base, "timestamp", timestamp), "malwares", malwares),
                 "mitre_codes", mitreCodes)
  }

  /** `entry['incident'] = incident` only when the incident has a key. */
  function WithIncident(listed: map<string, Json>, incident: map<string, Json>): (e: map<string, Json>)
    ensures |incident| == 0 ==> e == listed
    ensures |incident| > 0 ==> e == listed["incident" := JObj(incident)]
  {
    if |incident| == 0 then listed else listed["incident" := JObj(incident)]
  }

  /** The whole entry of a row. */
  function EntryFields(row: Row): map<string, Json> {
    var listed := ListedFields(IocFields(row), DetectionFields(row), Column(row, "Detection Time"),
                               SplitList(Column(row, "Malware")), SplitList(Column(row, "Mitre Codes")));
    WithIncident(listed, IncidentFields(row))
  }

  /** The shape of a converted entry: which keys are present is decided by
      which columns are non-empty, and the values are the column texts. */
  lemma EntryShape(row: Row)
    ensures var e := EntryFields(row);
      && "ioc" in e && e["ioc"] == JObj(IocFields(row))
      && "detection" in e && e["detection"] == JObj(DetectionFields(row))
      && ("timestamp" in e <==> Column(row, "Detection Time") != "")
      && ("timestamp" in e ==> e["timestamp"] == JStr(Column(row, "Detection Time")))
      && ("malwares" in e <==> |SplitList(Column(row, "Malware"))| > 0)
      && ("malwares" in e ==> e["malwares"] == JArr(StrList(SplitList(Column(row, "Malware")))))
      && ("mitre_codes" in e <==> |SplitList(Column(row, "Mitre Codes"))| > 0)
      && ("mitre_codes" in e ==> e["mitre_codes"] == JArr(StrList(SplitList(Column(row, "Mitre Codes")))))
      && ("incident" in e <==> Column(row, "Event Source") != "" || Column(row, "Event ID") != ""
                               || Column(row, "Event Name") != "")
      && ("incident" in e ==> e["incident"] == JObj(IncidentFields(row)))
  {
    var listed := ListedFields(IocFields(row), DetectionFields(row), Column(row, "Detection Time"),
                               SplitList(Column(row, "Malware")), SplitList(Column(row, "Mitre Codes")));
    var incident := IncidentFields(row);
    assert "incident" !in listed;
  }

  /** An entry has no keys beyond those the converter writes. */
  lemma EntryKeys(row: Row)
    ensures EntryFields(row).Keys <= {"ioc", "detection", "timestamp", "malwares", "mitre_codes", "incident"}
    ensures IocFields(row).Keys <= {"type", "value", "source_type"}
    ensures DetectionFields(row).Keys <= {"type", "name", "sub_type", "id"}
    ensures IncidentFields(row).Keys <= {"type", "id", "name"}
  {
    EntryFieldKeys(row);
    IocKeys(row);
    DetectionKeys(row);
    IncidentKeys(row);
  }

  lemma EntryFieldKeys(row: Row)
    ensures EntryFields(row).Keys <= {"ioc", "detection", "timestamp", "malwares", "mitre_codes", "incident"}
  {
    var listed := ListedFields(IocFields(row), DetectionFields(row), Column(row, "Detection Time"),
                               SplitList(Column(row, "Malware")), SplitList(Column(row, "Mitre Codes")));
    ListedKeys(IocFields(row), DetectionFields(row), Column(row, "Detection Time"),
               SplitList(Column(row, "Malware")), SplitList(Column(row, "Mitre Codes")));
    assert EntryFields(row) == WithIncident(listed, IncidentFields(row));
  }

  lemma IocKeys(row: Row)
    ensures IocFields(row).Keys <= {"type", "value", "source_type"}
  {
    PutKeys(map["type" := JStr(IocOf(row).0), "value" := JStr(IocOf(row).1)], "source_type", Column(row, "Source Type"));
  }

  lemma DetectionKeys(row: Row)
    ensures DetectionFields(row).Keys <= {"type", "name", "sub_type", "id"}
  {
    var base := map["type" := JStr(Column(row, "Detectors")), "name" := JStr(Column(row, "Description"))];
    PutKeys(base, "sub_type", Column(row, "Sub Type"));
    PutKeys(PutIfSet(base, "sub_type", Column(row, "Sub Type")), "id", Column(row, "Detection ID"));
  }

  lemma IncidentKeys(row: Row)
    ensures IncidentFields(row).Keys <= {"type", "id", "name"}
  {
    var m0: map<string, Json> := map[];
    var m1 := PutIfSet(m0, "type", Column(row, "Event Source"));
    var m2 := PutIfSet(m1, "id", Column(row, "Event ID"));
    PutKeys(m0, "type", Column(row, "Event Source"));
    PutKeys(m1, "id", Column(row, "Event ID"));
    PutKeys(m2, "name", Column(row, "Event Name"));
  }

  lemma PutKeys(m: map<string, Json>, key: string, value: string)
    ensures PutIfSet(m, key, value).Keys <= m.Keys + {key}
  {
  }

  lemma ListedKeys(ioc: map<string, Json>, detection: map<string, Json>, timestamp: string,
                   malwares: seq<string>, mitreCodes: seq<string>)
    ensures ListedFields(ioc, detection, timestamp, malwares, mitreCodes).Keys
            <= {"ioc", "detection", "timestamp", "malwares", "mitre_codes"}
  {
  }

  const NoTypeMessage := "IoC type is required but could not be determined"
  const NoValueMessage := "IoC value is required but missing"
  const NoDetectorMessage := "Detection type ('Detectors' column) is required but missing"

  /** `_row_to_entry(row)`: the entry, or the text of the ValueError raised;
      type, value and Detectors are checked in that order. */
  function RowToEntry(row: Row): (r: Result<map<string, Json>, string>)
    ensures r.Err? <==> IocOf(row).0 == "" || IocOf(row).1 == "" || Column(row, "Detectors") == ""
    ensures r.Ok? ==> r.value == EntryFields(row)
  {
    var (iocType, iocValue) := IocOf(row);
    if iocType == "" then Err(NoTypeMessage)
    else if iocValue == "" then Err(NoValueMessage)
    else if Column(row, "Detectors") == "" then Err(NoDetectorMessage)
    else Ok(EntryFields(row))
  }

  /** The ValueError names the first missing part: type, then value, then
      Detectors. */
  lemma RowErrorOrder(row: Row)
    requires RowToEntry(row).Err?
    ensures RowToEntry(row).error == (if IocOf(row).0 == "" then NoTypeMessage
                                      else if IocOf(row).1 == "" then NoValueMessage
                                      else NoDetectorMessage)
  {
  }

  lemma StrListAllStrings(xs: seq<string>)
    ensures forall j :: 0 <= j < |StrList(xs)| ==> StrList(xs)[j].JStr?
  {
  }

  lemma IocFieldsOk(row: Row)
    ensures Validators.IocOk(JObj(IocFields(row)))
  {
  }

  lemma DetectionFieldsOk(row: Row)
    ensures Validators.DetectionOk(JObj(DetectionFields(row)))
            <==> !(Column(row, "Detectors") == "detection_rule" && Column(row, "Sub Type") == "")
  {
    var d := DetectionFields(row);
    if Column(row, "Sub Type") != "" {
      assert Validators.HasSubType(d);
    }
  }

  /** An entry assembled from a valid IoC and string-only lists and
      incident is valid exactly when its detection is. */
  lemma AssembledEntryOk(ioc: map<string, Json>, detection: map<string, Json>, timestamp: string,
                         malwares: seq<string>, mitreCodes: seq<string>, incident: map<string, Json>)
    requires Validators.IocOk(JObj(ioc))
    requires "type" in incident ==> incident["type"].JStr?
    requires "id" in incident ==> incident["id"].JStr?
    requires "name" in incident ==> incident["name"].JStr?
    ensures Validators.EntryOk(JObj(WithIncident(ListedFields(ioc, detection, timestamp, malwares, mitreCodes), incident)))
            <==> Validators.DetectionOk(JObj(detection))
  {
    var listed := ListedFields(ioc, detection, timestamp, malwares, mitreCodes);
    var e := WithIncident(listed, incident);
    assert "incident" !in listed;
    StrListAllStrings(malwares);
    StrListAllStrings(mitreCodes);
    assert Validators.StrListOk(e, "malwares");
    assert Validators.StrListOk(e, "mitre_codes");
    assert Validators.IncidentOk(e);
  }

  /** A converted entry satisfies the Pydantic contract unless it is a
      `detection_rule` without a Sub Type. */
  lemma RowEntryValid(row: Row)
    requires RowToEntry(row).Ok?
    ensures Validators.EntryOk(JObj(RowToEntry(row).value))
            <==> !(Column(row, "Detectors") == "detection_rule" && Column(row, "Sub Type") == "")
  {
    IocFieldsOk(row);
    DetectionFieldsOk(row);
    AssembledEntryOk(IocFields(row), DetectionFields(row), Column(row, "Detection Time"),
                     SplitList(Column(row, "Malware")), SplitList(Column(row, "Mitre Codes")), IncidentFields(row));
  }

  /** The failure of the row fold: the 0-based index of the first bad row
      and the text of its ValueError. */
  datatype RowFailure = RowFailure(index: nat, message: string)

  /** `for row_num, row in enumerate(reader, start=1)` with `convert` applied
      to each row; the first failure stops the fold. */
  function ConvertRows<R, E>(convert: R -> Result<E, string>, rows: seq<R>): (r: Result<seq<E>, RowFailure>)
    ensures r.Ok? ==> |r.value| == |rows|
    ensures r.Err? ==> r.error.index < |rows|
  {
    if |rows| == 0 then Ok([])
    else match convert(rows[0])
      case Err(msg) => Err(RowFailure(0, msg))
      case Ok(entry) =>
        match ConvertRows(convert, rows[1..])
        case Err(f) => Err(RowFailure(f.index + 1, f.message))
        case Ok(rest) => Ok([entry] + rest)
  }

  /** The fold succeeds exactly when every row converts, and then holds the
      converted rows in order. */
  lemma {:induction false} ConvertRowsOk<R, E>(convert: R -> Result<E, string>, rows: seq<R>)
    ensures ConvertRows(convert, rows).Ok? <==> forall j :: 0 <= j < |rows| ==> convert(rows[j]).Ok?
    ensures ConvertRows(convert, rows).Ok? ==>
              forall j :: 0 <= j < |rows| ==> ConvertRows(convert, rows).value[j] == convert(rows[j]).value
  {
    if |rows| > 0 {
      ConvertRowsOk(convert, rows[1..]);
      assert forall j :: 1 <= j < |rows| ==> rows[1..][j - 1] == rows[j];
    }
  }

  /** A failing fold names the first row that does not convert, with that
      row's message. */
  lemma {:induction false} ConvertRowsErr<R, E>(convert: R -> Result<E, string>, rows: seq<R>)
    requires ConvertRows(convert, rows).Err?
    ensures var f := ConvertRows(convert, rows).error;
            && convert(rows[f.index]).Err?
            && f.message == convert(rows[f.index]).error
            && forall j :: 0 <= j < f.index ==> convert(rows[j]).Ok?
  {
    if convert(rows[0]).Ok? {
      ConvertRowsErr(convert, rows[1..]);
      var f := ConvertRows(convert, rows[1..]).error;
      assert rows[1..][f.index] == rows[f.index + 1];
      assert forall j :: 1 <= j < f.index + 1 ==> rows[1..][j - 1] == rows[j];
    }
  }

  /** The entries as JSON objects, in order. */
  function Objects(entries: seq<map<string, Json>>): (r: seq<Json>)
    ensures |r| == |entries|
    ensures forall i :: 0 <= i < |entries| ==> r[i] == JObj(entries[i])
  {
    seq(|entries|, i requires 0 <= i < |entries| => JObj(entries[i]))
  }

  /** What reading the file gives: its rows, or the text of the IOError or
      UnicodeDecodeError raised while reading. */
  datatype CsvFile = Rows(rows: seq<Row>) | Unreadable(reason: string)

  /** `csv_to_payload(csv_path)` */
  function CsvToPayload(file: CsvFile): (r: Result<map<string, Json>, Errors.Error>)
    ensures r.Err? ==> r.error.ConverterError?
    ensures file.Unreadable? ==> r == Err(Errors.ConverterError("Failed to read CSV file: " + file.reason))
    ensures r.Ok? ==> r.value.Keys == {"data"} && Validators.ValidPayload(r.value)
    ensures r.Ok? ==> file.Rows? && ConvertRows(RowToEntry, file.rows).Ok?
                      && r.value["data"] == JArr(Objects(ConvertRows(RowToEntry, file.rows).value))
  {
    match file
    case Unreadable(reason) => Err(Errors.ConverterError("Failed to read CSV file: " + reason))
    case Rows(rows) =>
      match ConvertRows(RowToEntry, rows)
      case Err(f) =>
        Err(Errors.ConverterError("Error in row " + Text.NatToString(f.index + 1) + ": " + f.message))
      case Ok(entries) =>
        var payload := map["data" := JArr(Objects(entries))];
        match Validators.ValidatePayload(payload)
        case Some(error) => Err(Errors.ConverterError("Payload validation failed: " + error))
        case None => Ok(payload)
  }

  /** The first bad row is the one reported, by its 1-based number. */
  lemma FirstBadRowReported(rows: seq<Row>, i: nat)
    requires i < |rows| && RowToEntry(rows[i]).Err?
    requires forall j :: 0 <= j < i ==> RowToEntry(rows[j]).Ok?
    ensures CsvToPayload(Rows(rows))
            == Err(Errors.ConverterError("Error in row " + Text.NatToString(i + 1) + ": " + RowToEntry(rows[i]).error))
  {
    ConvertRowsOk(RowToEntry, rows);
    ConvertRowsErr(RowToEntry, rows);
    var f := ConvertRows(RowToEntry, rows).error;
    assert f.index == i;
  }

  /** A row that maps to an entry the Pydantic contract accepts. */
  predicate RowAcceptable(row: Row) {
    RowToEntry(row).Ok? && !(Column(row, "Detectors") == "detection_rule" && Column(row, "Sub Type") == "")
  }

  /** Every row is acceptable. */
  predicate AllAcceptable(rows: seq<Row>) {
    |rows| == 0 || (RowAcceptable(rows[0]) && AllAcceptable(rows[1..]))
  }

  predicate AllEntriesOk(items: seq<Json>) {
    |items| == 0 || (Validators.EntryOk(items[0]) && AllEntriesOk(items[1..]))
  }

  lemma {:induction false} AllEntriesOkIff(items: seq<Json>)
    ensures AllEntriesOk(items) <==> forall i :: 0 <= i < |items| ==> Validators.EntryOk(items[i])
  {
    if |items| > 0 {
      AllEntriesOkIff(items[1..]);
      assert forall i :: 1 <= i < |items| ==> items[1..][i - 1] == items[i];
    }
  }

  lemma DataOnlyPayload(items: seq<Json>)
    ensures Validators.ValidPayload(map["data" := JArr(items)]) <==> |items| >= 1 && AllEntriesOk(items)
  {
    var p := map["data" := JArr(items)];
    assert "options" !in p && "organization_ids" !in p;
    assert Validators.OptionsOk(p) && Validators.StrListOk(p, "organization_ids");
    assert p["data"].items == items;
    AllEntriesOkIff(items);
  }

  lemma AllEntriesOkCons(x: Json, rest: seq<Json>)
    ensures AllEntriesOk([x] + rest) <==> Validators.EntryOk(x) && AllEntriesOk(rest)
  {
    assert ([x] + rest)[1..] == rest;
  }

  /** One step of a fold that succeeds: the first row's entry, then the rest. */
  lemma {:induction false} FoldStep<R>(convert: R -> Result<map<string, Json>, string>, rows: seq<R>)
    requires |rows| > 0 && ConvertRows(convert, rows).Ok?
    ensures convert(rows[0]).Ok? && ConvertRows(convert, rows[1..]).Ok?
    ensures Objects(ConvertRows(convert, rows).value)
            == [JObj(convert(rows[0]).value)] + Objects(ConvertRows(convert, rows[1..]).value)
  {
    var entries := ConvertRows(convert, rows).value;
    var rest := ConvertRows(convert, rows[1..]).value;
    assert entries == [convert(rows[0]).value] + rest;
  }

  /** Row by row, a fold that succeeds gives entries the contract accepts
      exactly when the rows are acceptable. */
  lemma {:induction false} ConvertedEntriesOk(rows: seq<Row>)
    requires ConvertRows(RowToEntry, rows).Ok?
    ensures AllEntriesOk(Objects(ConvertRows(RowToEntry, rows).value)) <==> AllAcceptable(rows)
  {
    if |rows| > 0 {
      FoldStep(RowToEntry, rows);
      AllEntriesOkCons(JObj(RowToEntry(rows[0]).value), Objects(ConvertRows(RowToEntry, rows[1..]).value));
      RowEntryValid(rows[0]);
      ConvertedEntriesOk(rows[1..]);
    }
  }

  /** A fold that fails leaves some row unacceptable. */
  lemma {:induction false} FailedFoldNotAcceptable(rows: seq<Row>)
    requires ConvertRows(RowToEntry, rows).Err?
    ensures !AllAcceptable(rows)
  {
    if RowToEntry(rows[0]).Ok? {
      FailedFoldNotAcceptable(rows[1..]);
    }
  }

  /** A readable file converts exactly when it has a row and every row maps
      to an acceptable entry. */
  lemma CsvToPayloadSucceeds(rows: seq<Row>)
    ensures CsvToPayload(Rows(rows)).Ok? <==> |rows| > 0 && AllAcceptable(rows)
  {
    var r := ConvertRows(RowToEntry, rows);
    if r.Err? {
      FailedFoldNotAcceptable(rows);
    } else {
      ConvertedEntriesOk(rows);
      DataOnlyPayload(Objects(r.value));
    }
  }

  /** The entries of a fold that succeeds are the rows' entries, in row
      order. */
  lemma ObjectsOfFold<R>(convert: R -> Result<map<string, Json>, string>, rows: seq<R>)
    requires ConvertRows(convert, rows).Ok?
    ensures var items := Objects(ConvertRows(convert, rows).value);
            && |items| == |rows|
            && forall j :: 0 <= j < |rows| ==> convert(rows[j]).Ok? && items[j] == JObj(convert(rows[j]).value)
  {
    ConvertRowsOk(convert, rows);
  }
}
