/** `format_results_for_display` and `calculate_summary_stats` of
    utils/data_formatter.py: every record is given the fixed display
    shape with defaults, and a list of records is summarised into
    per-status counts, the mean confidence and the number of distinct
    sources. */
module Display {
  import opened Values
  import opened JsonRecords

  // ---- the display shape ----------------------------------------------------

  /** The nineteen keys of a display record. */
  const DisplayKeys: set<FieldName> := {
    ProviderName, Npi, OriginalAddress, VerifiedAddress, City, State, ZipCode,
    Specialty, Phone, Email, Fax, ConfidenceScore, Status, Sources,
    AddressChanged, Discrepancies, OperationalStatus, Rank, OperatingHours
  }

  /** The value a display key takes when the record lacks it; the verified
      address falls back to the record's address. */
  function DisplayDefault(k: FieldName, r: Record): Field {
    match k
    case ProviderName => Cell(Str("Unknown"))
    case Npi => Cell(Str("N/A"))
    case VerifiedAddress => GetField(r, Address, Cell(Str("")))
    case ConfidenceScore => Cell(Int(0))
    case Status => Cell(Str("pending"))
    case Sources => Items([])
    case AddressChanged => Cell(Bool(false))
    case Discrepancies => Items([])
    case _ => Cell(Str(""))
  }

  /** The dictionary built for one result: every display key, each
      taking the result's own entry or the key's default. */
  function FormatRecord(r: Record): Record {
    map k | k in DisplayKeys :: GetField(r, k, DisplayDefault(k, r))
  }

  /** `format_results_for_display`: one display record per result, in order. */
  method FormatResults(results: seq<Record>) returns (formatted: seq<Record>)
    ensures formatted == MapRecords(FormatRecord, results)
  {
    formatted := [];
    var i := 0;
    while i < |results|
      invariant 0 <= i <= |results|
      invariant formatted == MapRecords(FormatRecord, results[..i])
    {
      assert results[..i + 1][..i] == results[..i];
      formatted := formatted + [FormatRecord(results[i])];
      i := i + 1;
    }
    assert results[..i] == results;
  }

  function MapRecords(f: Record -> Record, rs: seq<Record>): seq<Record> {
    if rs == [] then [] else MapRecords(f, rs[..|rs| - 1]) + [f(rs[|rs| - 1])]
  }

  lemma {:induction false} MapRecordsElements(f: Record -> Record, rs: seq<Record>)
    ensures |MapRecords(f, rs)| == |rs|
    ensures forall i :: 0 <= i < |rs| ==> MapRecords(f, rs)[i] == f(rs[i])
  {
    if rs != [] {
      var n := |rs| - 1;
      MapRecordsElements(f, rs[..n]);
      assert forall i :: 0 <= i < n ==> rs[..n][i] == rs[i];
    }
  }

  /** A result without entries shows the defaults: an unknown provider,
      no NPI, a score of 0, a pending status and empty lists. */
  lemma FormatEmpty()
    ensures var f := FormatRecord(map[]);
      f[ProviderName] == Cell(Str("Unknown")) && f[Npi] == Cell(Str("N/A"))
      && f[VerifiedAddress] == Cell(Str("")) && f[City] == Cell(Str(""))
      && f[ConfidenceScore] == Cell(Int(0)) && f[Status] == Cell(Str("pending"))
      && f[Sources] == Items([]) && f[AddressChanged] == Cell(Bool(false))
      && f[Discrepancies] == Items([])
  {
  }

  /** The verified address falls back to the address, and to text only when both are missing. */
  lemma FormatVerifiedAddress(r: Record)
    ensures VerifiedAddress in r ==> FormatRecord(r)[VerifiedAddress] == r[VerifiedAddress]
    ensures VerifiedAddress !in r && Address in r ==> FormatRecord(r)[VerifiedAddress] == r[Address]
    ensures VerifiedAddress !in r && Address !in r ==> FormatRecord(r)[VerifiedAddress] == Cell(Str(""))
  {
  }

  /** Entries outside the display keys, such as the address and the row
      number, are dropped. */
  lemma FormatDrops(r: Record)
    ensures Address !in FormatRecord(r) && RowNumber !in FormatRecord(r)
  {
  }

  /** A result that already has every display key is only cut down to them ... */
  lemma FormatComplete(r: Record)
    requires DisplayKeys <= r.Keys
    ensures FormatRecord(r) == map k | k in DisplayKeys :: r[k]
  {
  }

  /** ... so formatting twice is formatting once. */
  lemma FormatIdempotent(r: Record)
    ensures FormatRecord(FormatRecord(r)) == FormatRecord(r)
  {
    FormatComplete(FormatRecord(r));
  }

  /** A record with the display keys and the address loses just the address. */
  lemma FormatWithAddress(r: Record)
    requires r.Keys == DisplayKeys + {Address}
    ensures FormatRecord(r) == r - {Address}
  {
    FormatComplete(r);
  }

  /** A record parsed from a warehouse row keeps every entry but the address. */
  lemma FormatJsonRecord(rec: Row)
    ensures FormatRecord(JsonRecord(rec)) == JsonRecord(rec) - {Address}
  {
    JsonRecordKeys(rec);
    FormatWithAddress(JsonRecord(rec));
  }

  lemma JsonRecordKeys(rec: Row)
    ensures JsonRecord(rec).Keys == DisplayKeys + {Address}
  {
  }

  // ---- the summary ------------------------------------------------------------

  /** `r.get('status') == s`. */
  predicate HasStatus(r: Record, s: string) {
    Status in r && r[Status] == Cell(Str(s))
  }

  /** `sum(1 for r in results if r.get('status') == s)`. */
  function CountStatus(results: seq<Record>, s: string): (n: nat)
    ensures n <= |results|
  {
    if results == [] then 0
    else CountStatus(results[..|results| - 1], s) + (if HasStatus(results[|results| - 1], s) then 1 else 0)
  }

  /** The number a confidence entry adds to the sum, or None where `+` raises TypeError. */
  function Numeric(f: Field): Option<real> {
    match f
    case Cell(v) =>
      (match v
       case Int(i) => Some(i as real)
       case Float(x) => Some(x)
       case Bool(b) => Some(if b then 1.0 else 0.0)
       case _ => None)
    case Items(_) => None
  }

  /** `sum(r.get('confidence_score', 0) for r in results)`. */
  function ConfidenceSum(results: seq<Record>): Option<real> {
    if results == [] then Some(0.0)
    else
      var init := ConfidenceSum(results[..|results| - 1]);
      var x := Numeric(GetField(results[|results| - 1], ConfidenceScore, Cell(Int(0))));
      if init.None? || x.None? then None else Some(init.value + x.value)
  }

  /** What `set.update` iterates over: a list's elements or a string's
      characters; None for a value that is not iterable. */
  function Iterated(f: Field): Option<seq<Value>> {
    match f
    case Items(xs) => Some(xs)
    case Cell(v) =>
      if v.Str? then Some(seq(|v.s|, i requires 0 <= i < |v.s| => Str([v.s[i]]))) else None
  }

  /** The sources a record contributes (`r.get('sources', [])`). */
  function RecordSources(r: Record): Option<seq<Value>> {
    Iterated(GetField(r, Sources, Items([])))
  }

  /** The set after updating with the sources of every record. */
  function SourceUnion(results: seq<Record>): Option<set<HashKey>> {
    if results == [] then Some({})
    else
      var init := SourceUnion(results[..|results| - 1]);
      var src := RecordSources(results[|results| - 1]);
      if init.None? || src.None? then None else Some(init.value + KeysOf(src.value))
  }

  /** The summary dictionary; the verification rate is absent for an empty list. */
  datatype Summary = Summary(
    total: nat, verified: nat, review: nat, failed: nat,
    avgConfidence: real, sourcesConsulted: nat, verificationRate: Option<real>)

  /** A summary, or the TypeError raised on a non-numeric score or non-iterable sources. */
  datatype StatsOutcome = Computed(summary: Summary) | TypeError

  /** `calculate_summary_stats`, with the mean and the rate as exact fractions. */
  function SummaryStats(results: seq<Record>): StatsOutcome {
    var total := |results|;
    if total == 0 then Computed(Summary(0, 0, 0, 0, 0.0, 0, None))
    else
      var sum := ConfidenceSum(results);
      var all := SourceUnion(results);
      if sum.None? || all.None? then TypeError
      else
        var verified := CountStatus(results, "verified");
        Computed(Summary(total, verified, CountStatus(results, "needs_review"), CountStatus(results, "failed"),
                         sum.value / total as real, |all.value|,
                         Some(verified as real / total as real * 100.0)))
  }

  /** `calculate_summary_stats`: the sums are expressions, the sources are
      gathered by the `set.update` loop. */
  method CalculateSummaryStats(results: seq<Record>) returns (outcome: StatsOutcome)
    ensures outcome == SummaryStats(results)
  {
    var total := |results|;
    if total == 0 {
      return Computed(Summary(0, 0, 0, 0, 0.0, 0, None));
    }
    var verified := CountStatus(results, "verified");
    var review := CountStatus(results, "needs_review");
    var failed := CountStatus(results, "failed");
    var sum := ConfidenceSum(results);
    if sum.None? {
      return TypeError;
    }
    var allSources := GatherSources(results);
    if allSources.None? {
      return TypeError;
    }
    outcome := Computed(Summary(total, verified, review, failed, sum.value / total as real, |allSources.value|,
                                Some(verified as real / total as real * 100.0)));
  }

  /** The `all_sources.update(...)` loop; None where an update raises. */
  method GatherSources(results: seq<Record>) returns (all: Option<set<HashKey>>)
    ensures all == SourceUnion(results)
  {
    var allSources: set<HashKey> := {};
    var i := 0;
    while i < |results|
      invariant 0 <= i <= |results|
      invariant SourceUnion(results[..i]) == Some(allSources)
    {
      assert results[..i + 1][..i] == results[..i];
      var src := RecordSources(results[i]);
      if src.None? {
        SourceUnionFails(results, i + 1);
        return None;
      }
      allSources := allSources + KeysOf(src.value);
      i := i + 1;
    }
    assert results[..i] == results;
    all := Some(allSources);
  }

  /** Once one record's sources are not iterable, the update fails for
      every longer prefix. */
  lemma {:induction false} SourceUnionFails(results: seq<Record>, k: nat)
    requires 0 < k <= |results| && SourceUnion(results[..k]) == None
    ensures SourceUnion(results) == None
    decreases |results| - k
  {
    if k < |results| {
      assert results[..k + 1][..k] == results[..k];
      SourceUnionFails(results, k + 1);
    } else {
      assert results[..k] == results;
    }
  }

  // ---- properties ---------------------------------------------------------------

  /** An empty list gives the all-zero summary, without a division. */
  lemma EmptySummary()
    ensures SummaryStats([]) == Computed(Summary(0, 0, 0, 0, 0.0, 0, None))
  {
  }

  /** No record has two statuses, so the three counts add up to at most the total. */
  lemma {:induction false} CountsBounded(results: seq<Record>)
    ensures CountStatus(results, "verified") + CountStatus(results, "needs_review")
            + CountStatus(results, "failed") <= |results|
  {
    if results != [] {
      CountsBounded(results[..|results| - 1]);
    }
  }

  lemma SummaryCountsBounded(results: seq<Record>)
    requires SummaryStats(results).Computed?
    ensures var s := SummaryStats(results).summary;
      s.total == |results| && s.verified + s.review + s.failed <= s.total
  {
    CountsBounded(results);
  }

  /** The distinct sources are those of some record, compared as Python compares them. */
  lemma {:induction false} SourceUnionMembers(results: seq<Record>)
    requires SourceUnion(results).Some?
    ensures forall i :: 0 <= i < |results| ==> RecordSources(results[i]).Some?
    ensures forall k :: k in SourceUnion(results).value <==>
      exists i :: 0 <= i < |results| && RecordSources(results[i]).Some? && k in KeysOf(RecordSources(results[i]).value)
  {
    if results != [] {
      var n := |results| - 1;
      var init := results[..n];
      SourceUnionMembers(init);
      forall k | k in SourceUnion(results).value
        ensures exists i :: 0 <= i < |results| && RecordSources(results[i]).Some? && k in KeysOf(RecordSources(results[i]).value)
      {
        if k in SourceUnion(init).value {
          var i :| 0 <= i < |init| && k in KeysOf(RecordSources(init[i]).value);
          assert results[i] == init[i];
        } else {
          assert k in KeysOf(RecordSources(results[n]).value);
        }
      }
      forall k | exists i :: 0 <= i < |results| && RecordSources(results[i]).Some? && k in KeysOf(RecordSources(results[i]).value)
        ensures k in SourceUnion(results).value
      {
        var i :| 0 <= i < |results| && k in KeysOf(RecordSources(results[i]).value);
        if i < n {
          assert init[i] == results[i];
        }
      }
    }
  }

  /** `sources_consulted` is the size of the union of all source lists. */
  lemma SourcesConsulted(results: seq<Record>)
    requires results != [] && SummaryStats(results).Computed?
    ensures SourceUnion(results).Some?
    ensures SummaryStats(results).summary.sourcesConsulted == |SourceUnion(results).value|
    ensures forall k :: k in SourceUnion(results).value <==>
      exists i :: 0 <= i < |results| && RecordSources(results[i]).Some? && k in KeysOf(RecordSources(results[i]).value)
  {
    SourceUnionMembers(results);
  }

  /** The summary fails exactly on a score that is not a number or
      sources that are not iterable. */
  lemma {:induction false} ConfidenceSumDefined(results: seq<Record>)
    ensures ConfidenceSum(results).Some? <==>
      forall i :: 0 <= i < |results| ==> Numeric(GetField(results[i], ConfidenceScore, Cell(Int(0)))).Some?
  {
    if results != [] {
      var n := |results| - 1;
      ConfidenceSumDefined(results[..n]);
      assert forall i :: 0 <= i < n ==> results[..n][i] == results[i];
    }
  }

  lemma {:induction false} SourceUnionDefined(results: seq<Record>)
    ensures SourceUnion(results).Some? <==> forall i :: 0 <= i < |results| ==> RecordSources(results[i]).Some?
  {
    if results != [] {
      var n := |results| - 1;
      SourceUnionDefined(results[..n]);
      assert forall i :: 0 <= i < n ==> results[..n][i] == results[i];
    }
  }

  lemma SummaryFails(results: seq<Record>)
    ensures SummaryStats(results) == TypeError <==>
      (exists i :: 0 <= i < |results| && Numeric(GetField(results[i], ConfidenceScore, Cell(Int(0)))).None?)
      || (exists i :: 0 <= i < |results| && RecordSources(results[i]).None?)
  {
    ConfidenceSumDefined(results);
    SourceUnionDefined(results);
  }

  /** Text in the sources entry counts as its characters. */
  lemma TextSources()
    ensures SummaryStats([map[Sources := Cell(Str("aab"))]]).summary.sourcesConsulted == 2
  {
    var r: Record := map[Sources := Cell(Str("aab"))];
    assert [r][..0] == [];
    var chars := Iterated(Cell(Str("aab"))).value;
    assert chars == [Str("a"), Str("a"), Str("b")];
    var ks := KeysOf(chars);
    assert StrKey("a") in ks by { assert Key(chars[0]) == StrKey("a"); }
    assert StrKey("b") in ks by { assert Key(chars[2]) == StrKey("b"); }
    assert ks <= {StrKey("a"), StrKey("b")};
    assert ks == {StrKey("a"), StrKey("b")};
  }

  /** With every score in [0, 100], so is the mean. */
  lemma {:induction false} ConfidenceSumRange(results: seq<Record>)
    requires forall i :: 0 <= i < |results| ==>
      var x := Numeric(GetField(results[i], ConfidenceScore, Cell(Int(0))));
      x.Some? && 0.0 <= x.value <= 100.0
    ensures ConfidenceSum(results).Some?
    ensures 0.0 <= ConfidenceSum(results).value <= 100.0 * |results| as real
  {
    if results != [] {
      var n := |results| - 1;
      assert forall i :: 0 <= i < n ==> results[..n][i] == results[i];
      ConfidenceSumRange(results[..n]);
    }
  }

  lemma AverageInRange(results: seq<Record>)
    requires results != [] && SummaryStats(results).Computed?
    requires forall i :: 0 <= i < |results| ==>
      var x := Numeric(GetField(results[i], ConfidenceScore, Cell(Int(0))));
      x.Some? && 0.0 <= x.value <= 100.0
    ensures 0.0 <= SummaryStats(results).summary.avgConfidence <= 100.0
  {
    ConfidenceSumRange(results);
    var t := |results| as real;
    var s := ConfidenceSum(results).value;
    assert s / t <= 100.0 by {
      assert s <= 100.0 * t;
    }
  }
}
