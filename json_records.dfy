/** `parse_json_data` of utils/data_formatter.py: maps warehouse rows
    (or a JSON list of objects) into the dashboard's fixed record shape.
    Each row becomes one record or, when it is not an object, one error
    message. */
module JsonRecords {
  import opened Text
  import opened Values

  /** An element of the list handed over: an object, or any other JSON
      value, known here by the name of its Python type. */
  datatype JsonItem = Object(fields: Row) | NonObject(typeName: string)

  /** The argument: a single object or a list of elements. */
  datatype JsonData = Single(fields: Row) | Many(items: seq<JsonItem>)

  /** The list the loop walks: a single object is a one-element list. */
  function Elements(data: JsonData): (items: seq<JsonItem>)
    ensures data.Single? ==> items == [Object(data.fields)]
    ensures data.Many? ==> items == data.items
  {
    match data
    case Single(fields) => [Object(fields)]
    case Many(items) => items
  }

  // ---- confidence and status -------------------------------------------

  /** The score of a `confidence_measure` value (absent means "Medium"). */
  function MeasureScore(measure: Value): int {
    if measure == Str("High") then 90
    else if measure == Str("Medium") then 70
    else if measure == Str("Low") then 40
    else 50
  }

  /** The status from the raw `status` value (absent means "SUCCESS") and the score. */
  function JsonStatus(statusRaw: Value, score: int): string {
    if statusRaw == Str("SUCCESS") then
      if score >= 80 then "verified" else if score >= 50 then "needs_review" else "failed"
    else "failed"
  }

  function RecordScore(rec: Row): int {
    MeasureScore(Get(rec, "confidence_measure", Str("Medium")))
  }

  function RecordStatus(rec: Row): string {
    JsonStatus(Get(rec, "status", Str("SUCCESS")), RecordScore(rec))
  }

  // ---- sources -----------------------------------------------------------

  /** `v in ['NA', 'null', None]`. */
  predicate Placeholder(v: Value) {
    Key(v) in {StrKey("NA"), StrKey("null"), NoneKey}
  }

  function AddrSourceKey(i: nat): string { "addr_source_" + NatToString(i) }
  function PhoneSourceKey(i: nat): string { "phone_source_" + NatToString(i) }
  function HoursKey(i: nat): string { "operational_status_value_" + NatToString(i) }

  /** The i-th enumerated source: `addr_source_i`, or `phone_source_i` when that is falsy. */
  function SourceCandidate(rec: Row, i: nat): Value {
    Or(Get(rec, AddrSourceKey(i), Null), Get(rec, PhoneSourceKey(i), Null))
  }

  predicate Kept(v: Value) {
    Truthy(v) && !Placeholder(v)
  }

  /** The enumerated sources i..5 that pass the filter, in order. */
  function EnumeratedSources(rec: Row, i: nat): seq<Value>
    requires i >= 1
    decreases 6 - i
  {
    if i > 5 then []
    else
      var c := SourceCandidate(rec, i);
      (if Kept(c) then [c] else []) + EnumeratedSources(rec, i + 1)
  }

  /** One step of the enumeration, appended to the sources found so far. */
  lemma EnumeratedStep(rec: Row, i: nat, found: seq<Value>)
    requires 1 <= i <= 5
    ensures var c := SourceCandidate(rec, i);
      found + EnumeratedSources(rec, i)
      == (if Kept(c) then found + [c] else found) + EnumeratedSources(rec, i + 1)
  {
    var c := SourceCandidate(rec, i);
    if Kept(c) {
      assert found + ([c] + EnumeratedSources(rec, i + 1)) == (found + [c]) + EnumeratedSources(rec, i + 1);
    }
  }

  /** `addr_source`, when it is truthy and neither 'NA' nor None. */
  function PrimarySource(rec: Row): seq<Value> {
    var p := Get(rec, "addr_source", Null);
    if Truthy(p) && Key(p) !in {StrKey("NA"), NoneKey} then [p] else []
  }

  function JsonSources(rec: Row): seq<Value> {
    Dedup(PrimarySource(rec) + EnumeratedSources(rec, 1))
  }

  // ---- operating hours ---------------------------------------------------

  const HoursIndicators: seq<string> :=
    ["am", "pm", "monday", "tuesday", "wednesday", "thursday", "friday",
     "saturday", "sunday", "closed", ":"]

  predicate MentionsAny(text: string, indicators: seq<string>) {
    indicators != [] && (Contains(text, indicators[0]) || MentionsAny(text, indicators[1..]))
  }

  /** `str(value).lower()` contains one of the time indicators. */
  predicate LooksLikeHours(v: Value) {
    MentionsAny(Lower(Show(v)), HoursIndicators)
  }

  predicate HoursCandidate(v: Value) {
    Truthy(v) && !Placeholder(v) && Key(v) != StrKey("") && LooksLikeHours(v)
  }

  /** The first of `operational_status_value_i`..`_5` that looks like hours, else ''. */
  function HoursFrom(rec: Row, i: nat): Value
    requires i >= 1
    decreases 6 - i
  {
    if i > 5 then Str("")
    else
      var v := Get(rec, HoursKey(i), Str(""));
      if HoursCandidate(v) then v else HoursFrom(rec, i + 1)
  }

  // ---- discrepancies and address ------------------------------------------

  function JsonDiscrepancies(rec: Row): seq<Value> {
    var err := Get(rec, "error_message", Null);
    var llm := Get(rec, "llm_parse_error", Null);
    (if Truthy(err) then [err] else [])
      + (if Truthy(llm) then [Str("Parse error: " + Show(llm))] else [])
  }

  /** `source_address` and `address` are both truthy and differ. */
  predicate SourceAddressChanged(rec: Row) {
    var sourceAddr := Get(rec, "source_address", Str(""));
    var currentAddr := Get(rec, "address", Str(""));
    Truthy(sourceAddr) && Truthy(currentAddr) && !PyEq(sourceAddr, currentAddr)
  }

  /** The dashboard record built from one object. */
  function JsonRecord(rec: Row): Record {
    var address := Get(rec, "address", Get(rec, "source_address", Str("")));
    var sourceAddr := Get(rec, "source_address", Str(""));
    var currentAddr := Get(rec, "address", Str(""));
    var changed := SourceAddressChanged(rec);
    map[
      ProviderName := Cell(Or(Get(rec, "provider_name", Null), Get(rec, "source_provider_name", Str("")))),
      Npi := Cell(Get(rec, "source_npi", Str(""))),
      Address := Cell(address),
      OriginalAddress := Cell(if changed then sourceAddr else address),
      VerifiedAddress := Cell(if changed then currentAddr else address),
      City := Cell(Get(rec, "city", Get(rec, "source_city", Str("")))),
      State := Cell(Get(rec, "state", Get(rec, "source_state", Str("")))),
      ZipCode := Cell(Get(rec, "zipcode", Str(""))),
      Specialty := Cell(Get(rec, "facility_name", Str(""))),
      Phone := Cell(Get(rec, "phone", Str(""))),
      Email := Cell(Get(rec, "email", Str(""))),
      Fax := Cell(Get(rec, "fax", Str(""))),
      ConfidenceScore := Cell(Int(RecordScore(rec))),
      Status := Cell(Str(RecordStatus(rec))),
      Sources := Items(JsonSources(rec)),
      AddressChanged := Cell(Bool(changed)),
      Discrepancies := Items(JsonDiscrepancies(rec)),
      OperationalStatus := Cell(Get(rec, "operational_status", Str(""))),
      Rank := Cell(Get(rec, "rank", Str(""))),
      OperatingHours := Cell(HoursFrom(rec, 1))
    ]
  }

  /** The message for an element at position `idx` that has no `.get`. */
  function RecordError(idx: nat, typeName: string): string {
    "Error parsing record " + NatToString(idx + 1) + ": '" + typeName + "' object has no attribute 'get'"
  }

  function OutcomeOf(item: JsonItem, idx: nat): Outcome {
    match item
    case Object(fields) => Parsed(JsonRecord(fields))
    case NonObject(t) => Rejected(RecordError(idx, t))
  }

  /** One outcome per element, in input order. */
  function Outcomes(items: seq<JsonItem>): (outs: seq<Outcome>)
    ensures |outs| == |items|
    ensures forall i :: 0 <= i < |items| ==> outs[i] == OutcomeOf(items[i], i)
  {
    seq(|items|, i requires 0 <= i < |items| => OutcomeOf(items[i], i))
  }

  // ---- the loops of parse_json_data -----------------------------------------

  /** The `range(1, 6)` loop over the enumerated sources, the insertion
      of `addr_source` at the front and `dict.fromkeys`. */
  method CollectSources(rec: Row) returns (sources: seq<Value>)
    ensures sources == JsonSources(rec)
  {
    var found: seq<Value> := [];
    var i := 1;
    while i < 6
      invariant 1 <= i <= 6
      invariant found + EnumeratedSources(rec, i) == EnumeratedSources(rec, 1)
    {
      var source := Or(Get(rec, AddrSourceKey(i), Null), Get(rec, PhoneSourceKey(i), Null));
      EnumeratedStep(rec, i, found);
      if Truthy(source) && !Placeholder(source) {
        found := found + [source];
      }
      i := i + 1;
    }
    assert found == EnumeratedSources(rec, 1);
    var primary := Get(rec, "addr_source", Null);
    if Truthy(primary) && Key(primary) !in {StrKey("NA"), NoneKey} {
      found := [primary] + found;
    }
    assert found == PrimarySource(rec) + EnumeratedSources(rec, 1);
    sources := Dedup(found);
  }

  /** The `range(1, 6)` loop that stops at the first hours-like value. */
  method FindOperatingHours(rec: Row) returns (hours: Value)
    ensures hours == HoursFrom(rec, 1)
  {
    hours := Str("");
    var i := 1;
    while i < 6
      invariant 1 <= i <= 6
      invariant HoursFrom(rec, i) == HoursFrom(rec, 1)
    {
      var value := Get(rec, HoursKey(i), Str(""));
      if HoursCandidate(value) {
        hours := value;
        return;
      }
      i := i + 1;
    }
  }

  /** The body of the per-record loop for an object. */
  method MapRecord(rec: Row) returns (result: Record)
    ensures result == JsonRecord(rec)
  {
    var sources := CollectSources(rec);
    var hours := FindOperatingHours(rec);
    var address := Get(rec, "address", Get(rec, "source_address", Str("")));
    var sourceAddr := Get(rec, "source_address", Str(""));
    var currentAddr := Get(rec, "address", Str(""));
    var changed := Truthy(sourceAddr) && Truthy(currentAddr) && !PyEq(sourceAddr, currentAddr);
    var discrepancies: seq<Value> := [];
    if Truthy(Get(rec, "error_message", Null)) {
      discrepancies := discrepancies + [Get(rec, "error_message", Null)];
    }
    if Truthy(Get(rec, "llm_parse_error", Null)) {
      discrepancies := discrepancies + [Str("Parse error: " + Show(Get(rec, "llm_parse_error", Null)))];
    }
    assert discrepancies == JsonDiscrepancies(rec);
    assert changed == SourceAddressChanged(rec);
    result := map[
      ProviderName := Cell(Or(Get(rec, "provider_name", Null), Get(rec, "source_provider_name", Str("")))),
      Npi := Cell(Get(rec, "source_npi", Str(""))),
      Address := Cell(address),
      OriginalAddress := Cell(if changed then sourceAddr else address),
      VerifiedAddress := Cell(if changed then currentAddr else address),
      City := Cell(Get(rec, "city", Get(rec, "source_city", Str("")))),
      State := Cell(Get(rec, "state", Get(rec, "source_state", Str("")))),
      ZipCode := Cell(Get(rec, "zipcode", Str(""))),
      Specialty := Cell(Get(rec, "facility_name", Str(""))),
      Phone := Cell(Get(rec, "phone", Str(""))),
      Email := Cell(Get(rec, "email", Str(""))),
      Fax := Cell(Get(rec, "fax", Str(""))),
      ConfidenceScore := Cell(Int(RecordScore(rec))),
      Status := Cell(Str(RecordStatus(rec))),
      Sources := Items(sources),
      AddressChanged := Cell(Bool(changed)),
      Discrepancies := Items(discrepancies),
      OperationalStatus := Cell(Get(rec, "operational_status", Str(""))),
      Rank := Cell(Get(rec, "rank", Str(""))),
      OperatingHours := Cell(hours)
    ];
  }

  /** The body of the per-record loop: an object is mapped, anything
      else is caught as an error for its position. */
  method ParseElement(item: JsonItem, idx: nat) returns (outcome: Outcome)
    ensures outcome == OutcomeOf(item, idx)
  {
    match item
    case Object(fields) =>
      var result := MapRecord(fields);
      outcome := Parsed(result);
    case NonObject(t) =>
      outcome := Rejected(RecordError(idx, t));
  }

  /** `parse_json_data`: one parsed record per object and one message
      per other element, each list in input order. */
  method ParseJsonData(data: JsonData) returns (parsed: seq<Record>, errors: seq<string>)
    ensures parsed == ParsedRecords(Outcomes(Elements(data)))
    ensures errors == ErrorMessages(Outcomes(Elements(data)))
  {
    var items := if data.Single? then [Object(data.fields)] else data.items;
    ghost var outs := Outcomes(items);
    parsed, errors := [], [];
    var idx := 0;
    while idx < |items|
      invariant 0 <= idx <= |items|
      invariant parsed == ParsedRecords(outs[..idx])
      invariant errors == ErrorMessages(outs[..idx])
    {
      var outcome := ParseElement(items[idx], idx);
      PrefixStep(outs, idx);
      if outcome.Parsed? {
        parsed := parsed + [outcome.record];
      } else {
        errors := errors + [outcome.message];
      }
      idx := idx + 1;
    }
    assert outs[..|items|] == outs;
  }

  // ---- properties ------------------------------------------------------

  /** A list of objects parses without errors into one record per
      object, in order. */
  lemma ObjectsParseInOrder(items: seq<JsonItem>)
    requires forall i :: 0 <= i < |items| ==> items[i].Object?
    ensures |ParsedRecords(Outcomes(items))| == |items|
    ensures forall i :: 0 <= i < |items| ==> ParsedRecords(Outcomes(items))[i] == JsonRecord(items[i].fields)
    ensures ErrorMessages(Outcomes(items)) == []
  {
    AllParsed(Outcomes(items));
  }

  /** A dictionary is treated as a one-record list. */
  lemma SingleObject(rec: Row)
    ensures ParsedRecords(Outcomes(Elements(Single(rec)))) == [JsonRecord(rec)]
    ensures ErrorMessages(Outcomes(Elements(Single(rec)))) == []
  {
    var outs := Outcomes(Elements(Single(rec)));
    assert outs == [Parsed(JsonRecord(rec))];
    assert outs[..0] == [];
  }

  /** An element that is not an object is reported with its 1-based position. */
  lemma NonObjectReported(items: seq<JsonItem>, k: nat)
    requires k < |items| && items[k].NonObject?
    ensures Outcomes(items)[k] == Rejected("Error parsing record " + NatToString(k + 1) + ": '"
                                           + items[k].typeName + "' object has no attribute 'get'")
  {
  }

  /** The score table: High 90, Medium (also when absent) 70, Low 40, anything else 50. */
  lemma ScoreTable(rec: Row)
    ensures "confidence_measure" !in rec ==> RecordScore(rec) == 70
    ensures var m := Get(rec, "confidence_measure", Str("Medium"));
      RecordScore(rec) == (if m == Str("High") then 90 else if m == Str("Medium") then 70
                           else if m == Str("Low") then 40 else 50)
  {
  }

  /** The status is one of the three values, and which one is fixed by
      the raw status (absent means SUCCESS) and the confidence measure. */
  lemma StatusTable(rec: Row)
    ensures RecordStatus(rec) in {"verified", "needs_review", "failed"}
    ensures var success := Get(rec, "status", Str("SUCCESS")) == Str("SUCCESS");
      var m := Get(rec, "confidence_measure", Str("Medium"));
      && (RecordStatus(rec) == "verified" <==> success && m == Str("High"))
      && (RecordStatus(rec) == "failed" <==> !success || m == Str("Low"))
  {
  }

  /** Sources hold no duplicates, start with a usable `addr_source`, and
      every other entry is an enumerated source that is truthy and
      neither 'NA' nor 'null'. */
  lemma SourcesShape(rec: Row)
    ensures DistinctKeys(JsonSources(rec))
    ensures PrimarySource(rec) != [] ==> JsonSources(rec)[0] == Get(rec, "addr_source", Null)
    ensures forall v :: v in JsonSources(rec) ==>
      PrimarySource(rec) == [v] || (Kept(v) && exists i :: 1 <= i <= 5 && v == SourceCandidate(rec, i))
  {
    DedupSpec(PrimarySource(rec) + EnumeratedSources(rec, 1));
    forall v | v in EnumeratedSources(rec, 1)
      ensures Kept(v) && exists i :: 1 <= i <= 5 && v == SourceCandidate(rec, i)
    {
      EnumeratedSourcesFrom(rec, 1, v);
    }
  }

  lemma {:induction false} EnumeratedSourcesFrom(rec: Row, i: nat, v: Value)
    requires 1 <= i
    requires v in EnumeratedSources(rec, i)
    ensures Kept(v) && exists j :: i <= j <= 5 && v == SourceCandidate(rec, j)
    decreases 6 - i
  {
    if i <= 5 {
      var c := SourceCandidate(rec, i);
      if !(Kept(c) && v == c) {
        EnumeratedSourcesFrom(rec, i + 1, v);
      }
    }
  }

  /** No usable source is lost: every kept enumerated source is present up to equality. */
  lemma {:induction false} SourcesComplete(rec: Row, i: nat)
    requires 1 <= i <= 5
    requires Kept(SourceCandidate(rec, i))
    ensures Key(SourceCandidate(rec, i)) in KeysOf(JsonSources(rec))
  {
    EnumeratedContains(rec, 1, i);
    DedupSpec(PrimarySource(rec) + EnumeratedSources(rec, 1));
  }

  lemma {:induction false} EnumeratedContains(rec: Row, i: nat, k: nat)
    requires 1 <= i <= k <= 5
    requires Kept(SourceCandidate(rec, k))
    ensures SourceCandidate(rec, k) in EnumeratedSources(rec, i)
    decreases 6 - i
  {
    if i < k {
      EnumeratedContains(rec, i + 1, k);
    }
  }

  /** The hours are the first enumerated value that looks like hours ... */
  lemma {:induction false} HoursFirstMatch(rec: Row, i: nat, k: nat)
    requires 1 <= i <= k <= 5
    requires HoursCandidate(Get(rec, HoursKey(k), Str("")))
    requires forall j :: i <= j < k ==> !HoursCandidate(Get(rec, HoursKey(j), Str("")))
    ensures HoursFrom(rec, i) == Get(rec, HoursKey(k), Str(""))
    decreases k - i
  {
    if i < k {
      HoursFirstMatch(rec, i + 1, k);
    }
  }

  /** ... and '' when none does. */
  lemma {:induction false} HoursNoMatch(rec: Row, i: nat)
    requires 1 <= i
    requires forall j :: i <= j <= 5 ==> !HoursCandidate(Get(rec, HoursKey(j), Str("")))
    ensures HoursFrom(rec, i) == Str("")
    decreases 6 - i
  {
    if i <= 5 {
      HoursNoMatch(rec, i + 1);
    }
  }

  /** Only text can look like hours: a number or a boolean never does. */
  lemma NonTextIsNotHours(v: Value)
    requires !v.Str?
    ensures !LooksLikeHours(v)
  {
    var t := Lower(Show(v));
    match v
    case Null =>
      assert t == "none";
      NoIndicatorsInWord(t);
    case Bool(b) =>
      assert t == if b then "true" else "false";
      NoIndicatorsInWord(t);
    case Int(i) =>
      NumeralChars(i);
      LowerNumeral(Show(v));
      NoIndicators(t, HoursIndicators);
    case Float(x) =>
      NumeralChars(Trunc(x));
      assert Show(v) == IntToString(Trunc(x)) + ".0";
      LowerNumeral(Show(v));
      NoIndicators(t, HoursIndicators);
  }

  /** Lower-casing leaves the text of a number as it is. */
  lemma LowerNumeral(s: string)
    requires forall k :: 0 <= k < |s| ==> s[k] == '-' || s[k] == '.' || '0' <= s[k] <= '9'
    ensures Lower(s) == s
  {
  }

  lemma NumeralChars(i: int)
    ensures forall k :: 0 <= k < |IntToString(i)| ==> IntToString(i)[k] == '-' || '0' <= IntToString(i)[k] <= '9'
  {
    if i < 0 {
      var d := NatToString(-i);
      assert forall k :: 1 <= k < |"-" + d| ==> ("-" + d)[k] == d[k - 1];
    }
  }

  lemma NoIndicatorsInWord(t: string)
    requires t in {"none", "true", "false"}
    ensures !MentionsAny(t, HoursIndicators)
  {
    forall n | n in HoursIndicators ensures !Contains(t, n) {
      if |n| == 1 {
        MissingFirstChar(t, n);
      } else {
        MissingPair(t, n);
      }
    }
    NoneMentioned(t, HoursIndicators);
  }

  lemma {:induction false} NoneMentioned(t: string, indicators: seq<string>)
    requires forall n :: n in indicators ==> !Contains(t, n)
    ensures !MentionsAny(t, indicators)
  {
    if indicators != [] {
      assert indicators[0] in indicators;
      NoneMentioned(t, indicators[1..]);
    }
  }

  lemma NoIndicators(t: string, indicators: seq<string>)
    requires forall k :: 0 <= k < |t| ==> t[k] == '-' || t[k] == '.' || '0' <= t[k] <= '9'
    requires forall n :: n in indicators ==> n in HoursIndicators
    ensures !MentionsAny(t, indicators)
  {
    forall n | n in indicators ensures !Contains(t, n) {
      MissingFirstChar(t, n);
    }
    NoneMentioned(t, indicators);
  }

  /** A text lacking the first character of `n` does not contain `n`. */
  lemma {:induction false} MissingFirstChar(t: string, n: string)
    requires |n| > 0
    requires forall k :: 0 <= k < |t| ==> t[k] != n[0]
    ensures !Contains(t, n)
  {
    if |n| <= |t| {
      assert t[..|n|][0] == t[0];
      MissingFirstChar(t[1..], n);
    }
  }

  /** A text in which the first two characters of `n` never follow each
      other does not contain `n`. */
  lemma {:induction false} MissingPair(t: string, n: string)
    requires |n| >= 2
    requires forall k :: 0 <= k < |t| - 1 ==> t[k] != n[0] || t[k + 1] != n[1]
    ensures !Contains(t, n)
  {
    if |n| <= |t| {
      assert t[..|n|][0] == t[0] && t[..|n|][1] == t[1];
      MissingPair(t[1..], n);
    }
  }
}
