/** `parse_uploaded_data` of utils/data_formatter.py: an uploaded table
    whose columns are recognised by their (trimmed, lower-cased) names
    becomes one dashboard record per row, with a tolerant confidence
    parser, status synonyms and comma-separated lists. */
module UploadedRows {
  import opened Text
  import opened Values
  import opened Decimal

  /** An uploaded table: its column labels (as `str(col)`) and its rows,
      each cell given as its text, or None where the table holds a
      missing value. */
  datatype Frame = Frame(columns: seq<string>, rows: seq<seq<Option<string>>>)

  /** Every row has one cell per column. */
  predicate WellFormed(frame: Frame) {
    forall i :: 0 <= i < |frame.rows| ==> |frame.rows[i]| == |frame.columns|
  }

  /** The standard fields that have recognised column names, in the order
      the source dictionary lists them. */
  const MappedOrder: seq<FieldName> := [
    ProviderName, Npi, Address, City, State, ZipCode, Specialty, Phone, Email,
    ConfidenceScore, Status, Sources, OriginalAddress, VerifiedAddress, Discrepancies
  ]

  /** The recognised (normalised) column names of a standard field. */
  function Variants(f: FieldName): seq<string> {
    match f
    case ProviderName => ["provider name", "provider_name", "name", "provider", "physician name"]
    case Npi => ["npi", "npi number", "national provider identifier"]
    case Address => ["address", "street address", "street", "addr"]
    case City => ["city", "town"]
    case State => ["state", "st"]
    case ZipCode => ["zip", "zip code", "zipcode", "postal code", "zip_code"]
    case Specialty => ["specialty", "specialization", "medical specialty", "practice"]
    case Phone => ["phone", "phone number", "telephone", "tel"]
    case Email => ["email", "e-mail", "email address"]
    case ConfidenceScore => ["confidence", "confidence score", "confidence_score", "score", "confidence %"]
    case Status => ["status", "verification status", "verification_status", "result"]
    case Sources => ["sources", "data sources", "data_sources", "source", "references"]
    case OriginalAddress => ["original address", "original_address", "old address"]
    case VerifiedAddress => ["verified address", "verified_address", "new address", "corrected address"]
    case Discrepancies => ["discrepancies", "issues", "notes", "flags"]
    case _ => []
  }

  const MissingEssential := "Missing essential column: Need at least 'Provider Name' or 'NPI'"

  /** What pandas raises when `pd.isna` of a duplicated column is tested for truth. */
  const SeriesAmbiguous := "The truth value of a Series is ambiguous. Use a.empty, a.bool(), a.item(), a.any() or a.all()."

  // ---- column recognition ---------------------------------------------------

  /** `str(col).strip().lower()`. */
  function NormalizeColumn(c: string): string {
    Lower(Strip(c))
  }

  function NormalizeColumns(cols: seq<string>): (r: seq<string>)
    ensures |r| == |cols|
    ensures forall i :: 0 <= i < |cols| ==> r[i] == NormalizeColumn(cols[i])
  {
    seq(|cols|, i requires 0 <= i < |cols| => NormalizeColumn(cols[i]))
  }

  /** The first column from position `k` on that is one of `variants`. */
  function FirstMatchFrom(cols: seq<string>, variants: seq<string>, k: nat): (r: Option<nat>)
    requires k <= |cols|
    ensures r.Some? ==> k <= r.value < |cols| && cols[r.value] in variants
    ensures r.Some? ==> forall j :: k <= j < r.value ==> cols[j] !in variants
    ensures r.None? ==> forall j :: k <= j < |cols| ==> cols[j] !in variants
    decreases |cols| - k
  {
    if k == |cols| then None
    else if cols[k] in variants then Some(k)
    else FirstMatchFrom(cols, variants, k + 1)
  }

  /** `c` is the first column that is one of `variants`. */
  predicate FirstMatch(cols: seq<string>, variants: seq<string>, c: string) {
    var r := FirstMatchFrom(cols, variants, 0);
    r.Some? && cols[r.value] == c
  }

  /** A dictionary kept as its list of entries in insertion order. */
  predicate UniqueKeys(m: seq<(string, FieldName)>) {
    forall i, j :: 0 <= i < j < |m| ==> m[i].0 != m[j].0
  }

  /** `m[k] = v`: an existing entry is updated in place, a new one is appended. */
  function Assign(m: seq<(string, FieldName)>, k: string, v: FieldName): (r: seq<(string, FieldName)>)
    requires UniqueKeys(m)
    ensures UniqueKeys(r)
    ensures (k, v) in r
    ensures forall p :: p in r ==> p == (k, v) || (p in m && p.0 != k)
    ensures forall p :: p in m && p.0 != k ==> p in r
  {
    if m == [] then [(k, v)]
    else if m[0].0 == k then
      assert forall p :: p in m[1..] ==> p.0 != k;
      [(k, v)] + m[1..]
    else
      var rest := Assign(m[1..], k, v);
      assert forall p :: p in rest ==> p.0 != m[0].0;
      [m[0]] + rest
  }

  /** The column map after the loop has handled the fields `names`: each
      standard name is assigned to the first column among its variants. */
  function MatchColumns(names: seq<FieldName>, cols: seq<string>): (m: seq<(string, FieldName)>)
    ensures UniqueKeys(m)
    ensures forall p :: p in m ==> p.0 in cols
  {
    if names == [] then []
    else
      var m := MatchColumns(names[..|names| - 1], cols);
      var f := names[|names| - 1];
      var r := FirstMatchFrom(cols, Variants(f), 0);
      if r.Some? then Assign(m, cols[r.value], f) else m
  }

  function ColumnMap(cols: seq<string>): seq<(string, FieldName)> {
    MatchColumns(MappedOrder, cols)
  }

  /** The nested loops that build `column_map`. */
  method BuildColumnMap(cols: seq<string>) returns (columnMap: seq<(string, FieldName)>)
    ensures columnMap == ColumnMap(cols)
  {
    columnMap := [];
    var i := 0;
    while i < |MappedOrder|
      invariant 0 <= i <= |MappedOrder|
      invariant columnMap == MatchColumns(MappedOrder[..i], cols)
    {
      var standardName := MappedOrder[i];
      var variants := Variants(standardName);
      var k := 0;
      while k < |cols|
        invariant 0 <= k <= |cols|
        invariant FirstMatchFrom(cols, variants, k) == FirstMatchFrom(cols, variants, 0)
        invariant columnMap == MatchColumns(MappedOrder[..i], cols)
      {
        if cols[k] in variants {
          columnMap := Assign(columnMap, cols[k], standardName);
          break;
        }
        k := k + 1;
      }
      assert MappedOrder[..i + 1][..i] == MappedOrder[..i];
      i := i + 1;
    }
    assert MappedOrder[..|MappedOrder|] == MappedOrder;
  }

  /** No name of the provider is a name of another field ... */
  lemma ProviderNamesUnique(f: FieldName, c: string)
    requires f != ProviderName && c in Variants(ProviderName)
    ensures c !in Variants(f)
  {
    if f in {Npi, Address, City, State, ZipCode, Specialty, Phone} {
      ProviderNamesUniqueHead(f, c);
    } else {
      ProviderNamesUniqueTail(f, c);
    }
  }

  lemma ProviderNamesUniqueHead(f: FieldName, c: string)
    requires f in {Npi, Address, City, State, ZipCode, Specialty, Phone} && c in Variants(ProviderName)
    ensures c !in Variants(f)
  {
  }

  lemma ProviderNamesUniqueTail(f: FieldName, c: string)
    requires f !in {ProviderName, Npi, Address, City, State, ZipCode, Specialty, Phone} && c in Variants(ProviderName)
    ensures c !in Variants(f)
  {
  }

  /** ... and no name of the NPI is a name of a field after the provider. */
  lemma NpiNamesUnique(f: FieldName, c: string)
    requires f != ProviderName && f != Npi && c in Variants(Npi)
    ensures c !in Variants(f)
  {
  }

  /** Every entry of the column map pairs a column with a standard name
      whose first matching column it is. */
  lemma {:induction false} MatchColumnsOrigin(names: seq<FieldName>, cols: seq<string>)
    ensures forall p :: p in MatchColumns(names, cols) ==>
      exists i :: 0 <= i < |names| && names[i] == p.1 && FirstMatch(cols, Variants(names[i]), p.0)
  {
    if names != [] {
      var n := |names| - 1;
      var init := names[..n];
      MatchColumnsOrigin(init, cols);
      var m := MatchColumns(init, cols);
      forall p | p in MatchColumns(names, cols)
        ensures exists i :: 0 <= i < |names| && names[i] == p.1 && FirstMatch(cols, Variants(names[i]), p.0)
      {
        if p in m {
          var i :| 0 <= i < |init| && init[i] == p.1 && FirstMatch(cols, Variants(init[i]), p.0);
          assert names[i] == init[i];
        } else {
          assert FirstMatch(cols, Variants(names[n]), p.0);
        }
      }
    }
  }

  /** A standard name keeps its first matching column as long as no
      later field claims that column. */
  lemma {:induction false} MatchColumnsKeeps(names: seq<FieldName>, cols: seq<string>, i: nat, c: string)
    requires i < |names|
    requires FirstMatch(cols, Variants(names[i]), c)
    requires forall j :: i < j < |names| ==> c !in Variants(names[j])
    ensures (c, names[i]) in MatchColumns(names, cols)
  {
    var n := |names| - 1;
    var init := names[..n];
    if i < n {
      assert init[i] == names[i];
      assert forall j :: i < j < |init| ==> init[j] == names[j];
      MatchColumnsKeeps(init, cols, i, c);
      assert c !in Variants(names[n]);
    }
  }

  /** One of the two essential fields is recognised. */
  predicate HasEssential(columnMap: seq<(string, FieldName)>) {
    exists p :: p in columnMap && (p.1 == ProviderName || p.1 == Npi)
  }

  /** A field order that starts with the provider and the NPI and does not repeat them. */
  predicate EssentialFirst(names: seq<FieldName>) {
    && |names| >= 2 && names[0] == ProviderName && names[1] == Npi
    && (forall i :: 2 <= i < |names| ==> names[i] != ProviderName && names[i] != Npi)
  }

  /** Some column is a name of the provider or of the NPI. */
  predicate EssentialColumn(cols: seq<string>) {
    exists x :: 0 <= x < |cols| && (cols[x] in Variants(ProviderName) || cols[x] in Variants(Npi))
  }

  /** An entry for the provider or the NPI comes from a column with one of their names ... */
  lemma EssentialSound(names: seq<FieldName>, cols: seq<string>)
    requires EssentialFirst(names)
    requires HasEssential(MatchColumns(names, cols))
    ensures EssentialColumn(cols)
  {
    MatchColumnsOrigin(names, cols);
    var p :| p in MatchColumns(names, cols) && (p.1 == ProviderName || p.1 == Npi);
    var i :| 0 <= i < |names| && names[i] == p.1 && FirstMatch(cols, Variants(names[i]), p.0);
    assert i == 0 || i == 1;
    var x := FirstMatchFrom(cols, Variants(names[i]), 0).value;
    assert cols[x] in Variants(names[i]);
  }

  /** ... no field after the provider claims a name of it ... */
  lemma ProviderNamesLater(names: seq<FieldName>, c: string)
    requires EssentialFirst(names) && c in Variants(ProviderName)
    ensures forall j :: 0 < j < |names| ==> c !in Variants(names[j])
  {
    forall j | 0 < j < |names| ensures c !in Variants(names[j]) {
      ProviderNamesUnique(names[j], c);
    }
  }

  /** ... nor any field after the NPI a name of the NPI ... */
  lemma NpiNamesLater(names: seq<FieldName>, c: string)
    requires EssentialFirst(names) && c in Variants(Npi)
    ensures forall j :: 1 < j < |names| ==> c !in Variants(names[j])
  {
    forall j | 1 < j < |names| ensures c !in Variants(names[j]) {
      NpiNamesUnique(names[j], c);
    }
  }

  /** ... so such a column gives the provider or the NPI an entry. */
  lemma EssentialComplete(names: seq<FieldName>, cols: seq<string>)
    requires EssentialFirst(names)
    requires EssentialColumn(cols)
    ensures HasEssential(MatchColumns(names, cols))
  {
    var x :| 0 <= x < |cols| && (cols[x] in Variants(ProviderName) || cols[x] in Variants(Npi));
    var i := if cols[x] in Variants(ProviderName) then 0 else 1;
    var r := FirstMatchFrom(cols, Variants(names[i]), 0);
    assert r.Some?;
    var c := cols[r.value];
    if i == 0 {
      ProviderNamesLater(names, c);
    } else {
      NpiNamesLater(names, c);
    }
    MatchColumnsKeeps(names, cols, i, c);
    assert (c, names[i]) in MatchColumns(names, cols);
  }

  /** The essential check over any such field order. */
  lemma EssentialMatch(names: seq<FieldName>, cols: seq<string>)
    requires EssentialFirst(names)
    ensures HasEssential(MatchColumns(names, cols)) <==> EssentialColumn(cols)
  {
    if HasEssential(MatchColumns(names, cols)) {
      EssentialSound(names, cols);
    }
    if EssentialColumn(cols) {
      EssentialComplete(names, cols);
    }
  }

  lemma MappedOrderEssentialFirst()
    ensures EssentialFirst(MappedOrder)
  {
  }

  /** Some normalised column is such a name exactly when some column, trimmed
      and lower-cased, is one. */
  lemma NormalizedEssential(columns: seq<string>)
    ensures EssentialColumn(NormalizeColumns(columns))
        <==> exists c :: c in columns && (NormalizeColumn(c) in Variants(ProviderName) || NormalizeColumn(c) in Variants(Npi))
  {
    var cols := NormalizeColumns(columns);
    if exists c :: c in columns && (NormalizeColumn(c) in Variants(ProviderName) || NormalizeColumn(c) in Variants(Npi)) {
      var c :| c in columns && (NormalizeColumn(c) in Variants(ProviderName) || NormalizeColumn(c) in Variants(Npi));
      var x :| 0 <= x < |columns| && columns[x] == c;
      assert cols[x] == NormalizeColumn(c);
    }
    if EssentialColumn(cols) {
      var x :| 0 <= x < |cols| && (cols[x] in Variants(ProviderName) || cols[x] in Variants(Npi));
      assert columns[x] in columns;
    }
  }

  /** The essential check passes exactly when some column, trimmed and
      lower-cased, is a name of the provider or of the NPI. */
  lemma EssentialColumns(columns: seq<string>)
    ensures HasEssential(ColumnMap(NormalizeColumns(columns)))
        <==> exists c :: c in columns && (NormalizeColumn(c) in Variants(ProviderName) || NormalizeColumn(c) in Variants(Npi))
  {
    MappedOrderEssentialFirst();
    EssentialMatch(MappedOrder, NormalizeColumns(columns));
    NormalizedEssential(columns);
  }

  // ---- per-row values -----------------------------------------------------------

  /** How many columns carry the name `c`. */
  function Count(cols: seq<string>, c: string): nat {
    if cols == [] then 0 else (if cols[0] == c then 1 else 0) + Count(cols[1..], c)
  }

  /** The position of the column named `c`. */
  function IndexOf(cols: seq<string>, c: string): (r: nat)
    requires c in cols
    ensures r < |cols| && cols[r] == c
  {
    if cols[0] == c then 0 else 1 + IndexOf(cols[1..], c)
  }

  /** A missing value becomes '', anything else its stripped text. */
  function CellText(cell: Option<string>): string {
    if cell.None? then "" else Strip(cell.value)
  }

  /** Some recognised column name occurs twice after normalisation. */
  predicate Ambiguous(cols: seq<string>, columnMap: seq<(string, FieldName)>) {
    exists p :: p in columnMap && Count(cols, p.0) > 1
  }

  function StandardNames(columnMap: seq<(string, FieldName)>): set<FieldName> {
    set p | p in columnMap :: p.1
  }

  /** The record after the mapping loop: each standard name holds the
      cleaned text of its column. */
  function MappedFields(cols: seq<string>, row: seq<Option<string>>, columnMap: seq<(string, FieldName)>): (r: Record)
    requires |row| == |cols|
    requires forall p :: p in columnMap ==> p.0 in cols
    ensures r.Keys == StandardNames(columnMap)
  {
    if columnMap == [] then map[]
    else
      var init := columnMap[..|columnMap| - 1];
      var p := columnMap[|columnMap| - 1];
      assert StandardNames(columnMap) == StandardNames(init) + {p.1} by {
        assert columnMap == init + [p];
      }
      MappedFields(cols, row, init)[p.1 := Cell(Str(CellText(row[IndexOf(cols, p.0)])))]
  }

  /** `r.setdefault(k, v)`. */
  function SetDefault(r: Record, k: FieldName, v: Field): (s: Record)
    ensures forall j :: j in s <==> j in r || j == k
    ensures forall j :: j in s ==> s[j] == if j in r then r[j] else v
  {
    if k in r then r else r[k := v]
  }

  /** `r.get(k, d)` where the entry, when present, is text. */
  function TextOf(r: Record, k: FieldName, d: string): string {
    if k in r then TextIn(r[k], d) else d
  }

  function StrItems(xs: seq<string>): (r: seq<Value>)
    ensures |r| == |xs|
    ensures forall i :: 0 <= i < |xs| ==> r[i] == Str(xs[i])
  {
    seq(|xs|, i requires 0 <= i < |xs| => Str(xs[i]))
  }

  /** `s.replace(c, '')`. */
  function RemoveChar(s: string, c: char): (r: string)
    ensures c !in r
    ensures c !in s ==> r == s
  {
    if s == [] then [] else (if s[0] == c then [] else [s[0]]) + RemoveChar(s[1..], c)
  }

  /** The score of a parsed number: x in (1, 100] counts as a percentage,
      x <= 1 as a fraction, anything larger as 0. */
  function ConfidenceValue(x: real): int {
    if 1.0 < x <= 100.0 then Trunc(x)
    else if x <= 1.0 then Trunc(x * 100.0)
    else 0
  }

  /** The confidence text, '%' removed and stripped; empty or unparseable text scores 0. */
  function ConfidenceFromText(text: string): int {
    var t := Strip(RemoveChar(text, '%'));
    if t == "" then 0
    else
      var x := ParseFloat(t);
      if x.None? then 0 else ConfidenceValue(x.value)
  }

  const VerifiedWords: seq<string> := ["verified", "pass", "success", "approved", "valid"]
  const ReviewWords: seq<string> := ["needs_review", "review", "pending", "check", "warning"]
  const FailedWords: seq<string> := ["failed", "fail", "error", "invalid", "rejected"]

  /** `s in words`, one word at a time. */
  predicate IsOneOf(s: string, words: seq<string>) {
    words != [] && (s == words[0] || IsOneOf(s, words[1..]))
  }

  lemma {:induction false} IsOneOfIn(s: string, words: seq<string>)
    ensures IsOneOf(s, words) <==> s in words
  {
    if words != [] {
      IsOneOfIn(s, words[1..]);
      assert words == [words[0]] + words[1..];
    }
  }

  /** The three word lists, looked up one word at a time. */
  lemma StatusWordsIn(s: string)
    ensures IsOneOf(s, VerifiedWords) <==> s in VerifiedWords
    ensures IsOneOf(s, ReviewWords) <==> s in ReviewWords
    ensures IsOneOf(s, FailedWords) <==> s in FailedWords
  {
    IsOneOfIn(s, VerifiedWords);
    IsOneOfIn(s, ReviewWords);
    IsOneOfIn(s, FailedWords);
  }

  /** The status from its lower-cased text, or from the score when the text is not a known word. */
  function NormalizeStatus(raw: string, score: int): string {
    var s := Lower(raw);
    if IsOneOf(s, VerifiedWords) then "verified"
    else if IsOneOf(s, ReviewWords) then "needs_review"
    else if IsOneOf(s, FailedWords) then "failed"
    else if score >= 80 then "verified"
    else if score >= 50 then "needs_review"
    else "failed"
  }

  /** The stripped, non-blank pieces, in order. */
  function NonBlank(pieces: seq<string>): seq<string> {
    if pieces == [] then []
    else (if Strip(pieces[0]) != "" then [Strip(pieces[0])] else []) + NonBlank(pieces[1..])
  }

  /** `[s.strip() for s in text.split(',') if s.strip()]`, or [] for empty text. */
  function CommaList(text: string): seq<string> {
    if text == "" then [] else NonBlank(Split(text, ','))
  }

  /** The address counts as changed when the verified one is non-empty
      and differs from the original other than in letter case. */
  predicate AddressDiffers(original: string, verified: string) {
    original != verified && verified != "" && Lower(verified) != Lower(original)
  }

  /** The record after the `setdefault` calls: the mapped fields, the
      provider falling back to the NPI and the other identity fields to ''. */
  function WithDefaults(fields: Record, idx: nat): Record {
    var empty := Cell(Str(""));
    fields[ProviderName := GetField(fields, ProviderName, GetField(fields, Npi, Cell(Str("Provider " + NatToString(idx + 1)))))]
          [Npi := GetField(fields, Npi, empty)]
          [Address := GetField(fields, Address, empty)]
          [City := GetField(fields, City, empty)]
          [State := GetField(fields, State, empty)]
          [ZipCode := GetField(fields, ZipCode, empty)]
          [Specialty := GetField(fields, Specialty, empty)]
          [Phone := GetField(fields, Phone, empty)]
          [Email := GetField(fields, Email, empty)]
  }

  /** The text of an entry, or `d` when it is not text. */
  function TextIn(f: Field, d: string): string {
    if f.Cell? && f.v.Str? then f.v.s else d
  }

  /** The converted entries, each computed from the completed record `r`. */
  function Converted(r: Record, idx: nat): Record {
    var score := ConfidenceFromText(TextOf(r, ConfidenceScore, "0"));
    var original := GetField(r, OriginalAddress, GetField(r, Address, Cell(Str(""))));
    var verified := GetField(r, VerifiedAddress, GetField(r, Address, Cell(Str(""))));
    r[ConfidenceScore := Cell(Int(score))]
     [Status := Cell(Str(NormalizeStatus(TextOf(r, Status, ""), score)))]
     [Sources := Items(StrItems(CommaList(TextOf(r, Sources, ""))))]
     [OriginalAddress := original]
     [VerifiedAddress := verified]
     [AddressChanged := Cell(Bool(AddressDiffers(TextIn(original, ""), TextIn(verified, ""))))]
     [Discrepancies := Items(StrItems(CommaList(TextOf(r, Discrepancies, ""))))]
     [RowNumber := Cell(Int(idx + 1))]
  }

  /** The record built from the mapped fields of row `idx`. */
  function UploadedRecord(fields: Record, idx: nat): Record {
    Converted(WithDefaults(fields, idx), idx)
  }

  /** The `setdefault` calls one after the other, as the source performs them. */
  ghost function DefaultSteps(fields: Record, idx: nat): Record {
    var empty := Cell(Str(""));
    var r0 := SetDefault(fields, ProviderName, GetField(fields, Npi, Cell(Str("Provider " + NatToString(idx + 1)))));
    var r1 := SetDefault(SetDefault(SetDefault(SetDefault(r0, Npi, empty), Address, empty), City, empty), State, empty);
    SetDefault(SetDefault(SetDefault(SetDefault(r1, ZipCode, empty), Specialty, empty), Phone, empty), Email, empty)
  }

  /** The conversions one after the other, each reading the record as the
      previous steps left it, as the source performs them. */
  ghost function ConversionSteps(r: Record, idx: nat): Record {
    var score := ConfidenceFromText(TextOf(r, ConfidenceScore, "0"));
    var r3 := r[ConfidenceScore := Cell(Int(score))];
    var r4 := r3[Status := Cell(Str(NormalizeStatus(TextOf(r3, Status, ""), score)))];
    var r5 := r4[Sources := Items(StrItems(CommaList(TextOf(r4, Sources, ""))))];
    var r6 := SetDefault(r5, OriginalAddress, GetField(r5, Address, Cell(Str(""))));
    var r7 := SetDefault(r6, VerifiedAddress, GetField(r6, Address, Cell(Str(""))));
    var changed := AddressDiffers(TextOf(r7, OriginalAddress, ""), TextOf(r7, VerifiedAddress, ""));
    var r8 := r7[AddressChanged := Cell(Bool(changed))];
    var r9 := r8[Discrepancies := Items(StrItems(CommaList(TextOf(r8, Discrepancies, ""))))];
    r9[RowNumber := Cell(Int(idx + 1))]
  }

  /** `setdefault` stores what `get` with the same default returns. */
  lemma SetDefaultUpdate(r: Record, k: FieldName, v: Field)
    ensures SetDefault(r, k, v) == r[k := GetField(r, k, v)]
  {
    if k in r {
      assert r[k := r[k]] == r;
    }
  }

  /** The first five defaults, performed one by one, read the mapped fields only. */
  lemma DefaultsHead(fields: Record, p: Field)
    ensures SetDefault(SetDefault(SetDefault(SetDefault(SetDefault(fields, ProviderName, p), Npi, Cell(Str(""))), Address, Cell(Str(""))), City, Cell(Str(""))), State, Cell(Str("")))
         == fields[ProviderName := GetField(fields, ProviderName, p)]
                  [Npi := GetField(fields, Npi, Cell(Str("")))]
                  [Address := GetField(fields, Address, Cell(Str("")))]
                  [City := GetField(fields, City, Cell(Str("")))]
                  [State := GetField(fields, State, Cell(Str("")))]
  {
    var e := Cell(Str(""));
    var x0 := fields[ProviderName := GetField(fields, ProviderName, p)];
    SetDefaultUpdate(fields, ProviderName, p);
    var x1 := x0[Npi := GetField(fields, Npi, e)];
    SetDefaultUpdate(x0, Npi, e);
    var x2 := x1[Address := GetField(fields, Address, e)];
    SetDefaultUpdate(x1, Address, e);
    SetDefaultUpdate(x2, City, e);
    SetDefaultUpdate(x2[City := GetField(fields, City, e)], State, e);
  }

  /** The last four defaults, performed one by one, on a record that agrees
      with the mapped fields on those four keys. */
  lemma DefaultsTail(x: Record, fields: Record)
    requires GetField(x, ZipCode, Cell(Str(""))) == GetField(fields, ZipCode, Cell(Str("")))
    requires GetField(x, Specialty, Cell(Str(""))) == GetField(fields, Specialty, Cell(Str("")))
    requires GetField(x, Phone, Cell(Str(""))) == GetField(fields, Phone, Cell(Str("")))
    requires GetField(x, Email, Cell(Str(""))) == GetField(fields, Email, Cell(Str("")))
    ensures SetDefault(SetDefault(SetDefault(SetDefault(x, ZipCode, Cell(Str(""))), Specialty, Cell(Str(""))), Phone, Cell(Str(""))), Email, Cell(Str("")))
         == x[ZipCode := GetField(fields, ZipCode, Cell(Str("")))]
             [Specialty := GetField(fields, Specialty, Cell(Str("")))]
             [Phone := GetField(fields, Phone, Cell(Str("")))]
             [Email := GetField(fields, Email, Cell(Str("")))]
  {
    var e := Cell(Str(""));
    var x0 := x[ZipCode := GetField(x, ZipCode, e)];
    SetDefaultUpdate(x, ZipCode, e);
    var x1 := x0[Specialty := GetField(x, Specialty, e)];
    SetDefaultUpdate(x0, Specialty, e);
    SetDefaultUpdate(x1, Phone, e);
    SetDefaultUpdate(x1[Phone := GetField(x, Phone, e)], Email, e);
  }

  /** Performing the defaults one by one gives the record they describe. */
  lemma DefaultStepsClosed(fields: Record, idx: nat)
    ensures DefaultSteps(fields, idx) == WithDefaults(fields, idx)
  {
    var e := Cell(Str(""));
    var p := GetField(fields, Npi, Cell(Str("Provider " + NatToString(idx + 1))));
    DefaultsHead(fields, p);
    var x := fields[ProviderName := GetField(fields, ProviderName, p)]
                   [Npi := GetField(fields, Npi, e)]
                   [Address := GetField(fields, Address, e)]
                   [City := GetField(fields, City, e)]
                   [State := GetField(fields, State, e)];
    DefaultsTail(x, fields);
  }

  /** The address entries: `setdefault` twice, then the comparison of the
      two, on the record after the first three conversions. */
  lemma AddressSteps(r: Record, score: Field, status: Field, sources: Field)
    ensures
      var x := r[ConfidenceScore := score][Status := status][Sources := sources];
      var r6 := SetDefault(x, OriginalAddress, GetField(x, Address, Cell(Str(""))));
      var r7 := SetDefault(r6, VerifiedAddress, GetField(r6, Address, Cell(Str(""))));
      var original := GetField(r, OriginalAddress, GetField(r, Address, Cell(Str(""))));
      var verified := GetField(r, VerifiedAddress, GetField(r, Address, Cell(Str(""))));
      r7 == x[OriginalAddress := original][VerifiedAddress := verified]
      && TextOf(r7, OriginalAddress, "") == TextIn(original, "")
      && TextOf(r7, VerifiedAddress, "") == TextIn(verified, "")
  {
    var empty := Cell(Str(""));
    var x := r[ConfidenceScore := score][Status := status][Sources := sources];
    SetDefaultUpdate(x, OriginalAddress, GetField(r, Address, empty));
    var r6 := x[OriginalAddress := GetField(r, OriginalAddress, GetField(r, Address, empty))];
    assert GetField(r6, Address, empty) == GetField(r, Address, empty);
    SetDefaultUpdate(r6, VerifiedAddress, GetField(r, Address, empty));
  }

  /** The score, status and sources entries: the status and the sources read
      entries the preceding assignments do not touch. */
  lemma ScoreSteps(r: Record, score: int)
    ensures
      var r3 := r[ConfidenceScore := Cell(Int(score))];
      var r4 := r3[Status := Cell(Str(NormalizeStatus(TextOf(r3, Status, ""), score)))];
      r4[Sources := Items(StrItems(CommaList(TextOf(r4, Sources, ""))))]
      == r[ConfidenceScore := Cell(Int(score))]
          [Status := Cell(Str(NormalizeStatus(TextOf(r, Status, ""), score)))]
          [Sources := Items(StrItems(CommaList(TextOf(r, Sources, ""))))]
  {
    var r3 := r[ConfidenceScore := Cell(Int(score))];
    assert TextOf(r3, Status, "") == TextOf(r, Status, "");
    var r4 := r3[Status := Cell(Str(NormalizeStatus(TextOf(r, Status, ""), score)))];
    assert TextOf(r4, Sources, "") == TextOf(r, Sources, "");
  }

  /** The discrepancies entry reads an entry the preceding assignments do not touch. */
  lemma DiscrepancySteps(r: Record, score: Field, status: Field, sources: Field, original: Field, verified: Field, changed: Field)
    ensures
      var y := r[ConfidenceScore := score][Status := status][Sources := sources]
                [OriginalAddress := original][VerifiedAddress := verified][AddressChanged := changed];
      TextOf(y, Discrepancies, "") == TextOf(r, Discrepancies, "")
  {
  }

  /** Performing the conversions one by one gives the record they describe. */
  lemma ConversionStepsClosed(r: Record, idx: nat)
    ensures ConversionSteps(r, idx) == Converted(r, idx)
  {
    var empty := Cell(Str(""));
    var s := ConfidenceFromText(TextOf(r, ConfidenceScore, "0"));
    var score := Cell(Int(s));
    var status := Cell(Str(NormalizeStatus(TextOf(r, Status, ""), s)));
    var sources := Items(StrItems(CommaList(TextOf(r, Sources, ""))));
    ScoreSteps(r, s);
    AddressSteps(r, score, status, sources);
    var original := GetField(r, OriginalAddress, GetField(r, Address, empty));
    var verified := GetField(r, VerifiedAddress, GetField(r, Address, empty));
    DiscrepancySteps(r, score, status, sources, original, verified,
                     Cell(Bool(AddressDiffers(TextIn(original, ""), TextIn(verified, "")))));
  }

  function RowError(idx: nat, reason: string): string {
    "Error parsing row " + NatToString(idx + 1) + ": " + reason
  }

  function RowOutcome(cols: seq<string>, row: seq<Option<string>>, columnMap: seq<(string, FieldName)>, idx: nat): Outcome
    requires |row| == |cols|
    requires forall p :: p in columnMap ==> p.0 in cols
  {
    if Ambiguous(cols, columnMap) then Rejected(RowError(idx, SeriesAmbiguous))
    else Parsed(UploadedRecord(MappedFields(cols, row, columnMap), idx))
  }

  function RowOutcomes(cols: seq<string>, rows: seq<seq<Option<string>>>, columnMap: seq<(string, FieldName)>): (outs: seq<Outcome>)
    requires forall i :: 0 <= i < |rows| ==> |rows[i]| == |cols|
    requires forall p :: p in columnMap ==> p.0 in cols
    ensures |outs| == |rows|
    ensures forall i :: 0 <= i < |rows| ==> outs[i] == RowOutcome(cols, rows[i], columnMap, i)
  {
    seq(|rows|, i requires 0 <= i < |rows| => RowOutcome(cols, rows[i], columnMap, i))
  }

  /** `(parsed_data, validation_errors)`. */
  function UploadedResult(frame: Frame): (seq<Record>, seq<string>)
    requires WellFormed(frame)
  {
    var cols := NormalizeColumns(frame.columns);
    var columnMap := ColumnMap(cols);
    if !HasEssential(columnMap) then ([], [MissingEssential])
    else
      var outs := RowOutcomes(cols, frame.rows, columnMap);
      (ParsedRecords(outs), ErrorMessages(outs))
  }

  // ---- the loops of parse_uploaded_data -------------------------------------------

  /** The body of the per-row loop. */
  method ParseRow(cols: seq<string>, row: seq<Option<string>>, columnMap: seq<(string, FieldName)>, idx: nat)
    returns (outcome: Outcome)
    requires |row| == |cols|
    requires forall p :: p in columnMap ==> p.0 in cols
    ensures outcome == RowOutcome(cols, row, columnMap, idx)
  {
    var record: Record := map[];
    var k := 0;
    while k < |columnMap|
      invariant 0 <= k <= |columnMap|
      invariant forall j :: 0 <= j < k ==> Count(cols, columnMap[j].0) <= 1
      invariant record == MappedFields(cols, row, columnMap[..k])
    {
      var (origCol, standardCol) := columnMap[k];
      if Count(cols, origCol) > 1 {
        outcome := Rejected(RowError(idx, SeriesAmbiguous));
        return;
      }
      var value := CellText(row[IndexOf(cols, origCol)]);
      assert columnMap[..k + 1][..k] == columnMap[..k];
      record := record[standardCol := Cell(Str(value))];
      k := k + 1;
    }
    assert columnMap[..k] == columnMap;
    assert !Ambiguous(cols, columnMap);
    ghost var fields := record;
    record := SetDefault(record, ProviderName,
                         GetField(record, Npi, Cell(Str("Provider " + NatToString(idx + 1)))));
    record := SetDefault(record, Npi, Cell(Str("")));
    record := SetDefault(record, Address, Cell(Str("")));
    record := SetDefault(record, City, Cell(Str("")));
    record := SetDefault(record, State, Cell(Str("")));
    record := SetDefault(record, ZipCode, Cell(Str("")));
    record := SetDefault(record, Specialty, Cell(Str("")));
    record := SetDefault(record, Phone, Cell(Str("")));
    record := SetDefault(record, Email, Cell(Str("")));
    ghost var completed := record;
    var score := ConfidenceFromText(TextOf(record, ConfidenceScore, "0"));
    record := record[ConfidenceScore := Cell(Int(score))];
    var status := NormalizeStatus(TextOf(record, Status, ""), score);
    record := record[Status := Cell(Str(status))];
    record := record[Sources := Items(StrItems(CommaList(TextOf(record, Sources, ""))))];
    record := SetDefault(record, OriginalAddress, GetField(record, Address, Cell(Str(""))));
    record := SetDefault(record, VerifiedAddress, GetField(record, Address, Cell(Str(""))));
    var changed := AddressDiffers(TextOf(record, OriginalAddress, ""), TextOf(record, VerifiedAddress, ""));
    record := record[AddressChanged := Cell(Bool(changed))];
    record := record[Discrepancies := Items(StrItems(CommaList(TextOf(record, Discrepancies, ""))))];
    record := record[RowNumber := Cell(Int(idx + 1))];
    DefaultStepsClosed(fields, idx);
    ConversionStepsClosed(completed, idx);
    outcome := Parsed(record);
  }

  /** The per-row loop of `parse_uploaded_data`. */
  method ParseRows(cols: seq<string>, rows: seq<seq<Option<string>>>, columnMap: seq<(string, FieldName)>)
    returns (parsed: seq<Record>, errors: seq<string>)
    requires forall i :: 0 <= i < |rows| ==> |rows[i]| == |cols|
    requires forall p :: p in columnMap ==> p.0 in cols
    ensures parsed == ParsedRecords(RowOutcomes(cols, rows, columnMap))
    ensures errors == ErrorMessages(RowOutcomes(cols, rows, columnMap))
  {
    ghost var outs := RowOutcomes(cols, rows, columnMap);
    parsed, errors := [], [];
    var idx := 0;
    while idx < |rows|
      invariant 0 <= idx <= |rows|
      invariant parsed == ParsedRecords(outs[..idx])
      invariant errors == ErrorMessages(outs[..idx])
    {
      var outcome := ParseRow(cols, rows[idx], columnMap, idx);
      PrefixStep(outs, idx);
      if outcome.Parsed? {
        parsed := parsed + [outcome.record];
      } else {
        errors := errors + [outcome.message];
      }
      idx := idx + 1;
    }
    assert outs[..|rows|] == outs;
  }

  /** `parse_uploaded_data`. */
  method ParseUploadedData(frame: Frame) returns (parsed: seq<Record>, errors: seq<string>)
    requires WellFormed(frame)
    ensures (parsed, errors) == UploadedResult(frame)
  {
    var cols := NormalizeColumns(frame.columns);
    var columnMap := BuildColumnMap(cols);
    if !HasEssential(columnMap) {
      return [], [MissingEssential];
    }
    parsed, errors := ParseRows(cols, frame.rows, columnMap);
  }

  // ---- properties ------------------------------------------------------------

  /** The keys every parsed row record has. */
  const UploadedKeys: set<FieldName> := {
    ProviderName, Npi, Address, City, State, ZipCode, Specialty, Phone, Email,
    ConfidenceScore, Status, Sources, OriginalAddress, VerifiedAddress,
    AddressChanged, Discrepancies, RowNumber
  }

  /** Without a recognised provider or NPI column no row is parsed and
      the one message says so. */
  lemma MissingEssentialColumn(frame: Frame)
    requires WellFormed(frame)
    requires forall c :: c in frame.columns ==> NormalizeColumn(c) !in Variants(ProviderName) && NormalizeColumn(c) !in Variants(Npi)
    ensures UploadedResult(frame) == ([], [MissingEssential])
  {
    EssentialColumns(frame.columns);
  }

  /** Otherwise every row yields one record or one message. */
  lemma OneResultPerRow(frame: Frame)
    requires WellFormed(frame)
    requires exists c :: c in frame.columns && (NormalizeColumn(c) in Variants(ProviderName) || NormalizeColumn(c) in Variants(Npi))
    ensures |UploadedResult(frame).0| + |UploadedResult(frame).1| == |frame.rows|
  {
    EssentialColumns(frame.columns);
    var cols := NormalizeColumns(frame.columns);
    OneOutcomeEach(RowOutcomes(cols, frame.rows, ColumnMap(cols)));
  }

  /** A row under an ambiguous column map is rejected. */
  lemma AmbiguousRowRejected(cols: seq<string>, row: seq<Option<string>>, columnMap: seq<(string, FieldName)>, idx: nat)
    requires |row| == |cols|
    requires forall p :: p in columnMap ==> p.0 in cols
    requires Ambiguous(cols, columnMap)
    ensures RowOutcome(cols, row, columnMap, idx) == Rejected(RowError(idx, SeriesAmbiguous))
  {
  }

  /** Under an ambiguous column map every row is rejected with the same message. */
  lemma AmbiguousRejectsAll(cols: seq<string>, rows: seq<seq<Option<string>>>, columnMap: seq<(string, FieldName)>)
    requires forall i :: 0 <= i < |rows| ==> |rows[i]| == |cols|
    requires forall p :: p in columnMap ==> p.0 in cols
    requires Ambiguous(cols, columnMap)
    ensures ParsedRecords(RowOutcomes(cols, rows, columnMap)) == []
    ensures |ErrorMessages(RowOutcomes(cols, rows, columnMap))| == |rows|
    ensures forall i :: 0 <= i < |rows| ==> ErrorMessages(RowOutcomes(cols, rows, columnMap))[i] == RowError(i, SeriesAmbiguous)
  {
    var outs := RowOutcomes(cols, rows, columnMap);
    forall i | 0 <= i < |outs| ensures outs[i] == Rejected(RowError(i, SeriesAmbiguous)) {
      AmbiguousRowRejected(cols, rows[i], columnMap, i);
    }
    AllRejected(outs);
  }

  /** A recognised column whose name occurs twice after normalisation
      makes every row fail with the same message. */
  lemma DuplicateColumnRejectsRows(frame: Frame)
    requires WellFormed(frame)
    requires HasEssential(ColumnMap(NormalizeColumns(frame.columns)))
    requires Ambiguous(NormalizeColumns(frame.columns), ColumnMap(NormalizeColumns(frame.columns)))
    ensures UploadedResult(frame).0 == []
    ensures |UploadedResult(frame).1| == |frame.rows|
    ensures forall i :: 0 <= i < |frame.rows| ==> UploadedResult(frame).1[i] == RowError(i, SeriesAmbiguous)
  {
    var cols := NormalizeColumns(frame.columns);
    AmbiguousRejectsAll(cols, frame.rows, ColumnMap(cols));
  }

  /** Every column-map entry carries one of the fifteen standard names. */
  lemma StandardNamesKnown(cols: seq<string>)
    ensures StandardNames(ColumnMap(cols)) <= UploadedKeys
  {
    MatchColumnsOrigin(MappedOrder, cols);
    forall p | p in ColumnMap(cols) ensures p.1 in UploadedKeys {
      var i :| 0 <= i < |MappedOrder| && MappedOrder[i] == p.1 && FirstMatch(cols, Variants(MappedOrder[i]), p.0);
      assert MappedOrder[i] in UploadedKeys;
    }
  }

  /** With the essential check passed, the mapped fields hold the provider or the NPI. */
  lemma EssentialFieldMapped(cols: seq<string>, row: seq<Option<string>>, columnMap: seq<(string, FieldName)>)
    requires |row| == |cols|
    requires forall p :: p in columnMap ==> p.0 in cols
    requires HasEssential(columnMap)
    ensures ProviderName in MappedFields(cols, row, columnMap) || Npi in MappedFields(cols, row, columnMap)
  {
    var p :| p in columnMap && (p.1 == ProviderName || p.1 == Npi);
    assert p.1 in StandardNames(columnMap);
  }

  const DefaultedKeys: set<FieldName> :=
    {ProviderName, Npi, Address, City, State, ZipCode, Specialty, Phone, Email}

  /** The defaults add the nine identity keys ... */
  lemma WithDefaultsKeys(fields: Record, idx: nat)
    ensures WithDefaults(fields, idx).Keys == fields.Keys + DefaultedKeys
  {
  }

  /** ... change nothing already present ... */
  lemma WithDefaultsKeeps(fields: Record, idx: nat)
    ensures forall k :: k in fields ==> WithDefaults(fields, idx)[k] == fields[k]
  {
  }

  /** ... let a missing provider fall back to the NPI ... */
  lemma WithDefaultsProvider(fields: Record, idx: nat)
    ensures WithDefaults(fields, idx)[ProviderName]
         == GetField(fields, ProviderName, GetField(fields, Npi, Cell(Str("Provider " + NatToString(idx + 1)))))
  {
  }

  /** ... and every other missing identity field to ''. */
  lemma WithDefaultsEmpty(fields: Record, idx: nat)
    ensures forall k :: k in DefaultedKeys && k != ProviderName ==> WithDefaults(fields, idx)[k] == GetField(fields, k, Cell(Str("")))
  {
    var r := WithDefaults(fields, idx);
    forall k | k in DefaultedKeys && k != ProviderName ensures r[k] == GetField(fields, k, Cell(Str(""))) {
      if k in fields {} else {}
    }
  }

  const ConvertedNames: set<FieldName> :=
    {ConfidenceScore, Status, Sources, OriginalAddress, VerifiedAddress, AddressChanged, Discrepancies, RowNumber}

  /** The eight assignments of the conversions, whatever values they store. */
  lemma ConversionEntries(r: Record, score: Field, status: Field, sources: Field, original: Field,
                          verified: Field, changed: Field, discrepancies: Field, number: Field)
    ensures
      var x := r[ConfidenceScore := score][Status := status][Sources := sources][OriginalAddress := original]
                [VerifiedAddress := verified][AddressChanged := changed][Discrepancies := discrepancies][RowNumber := number];
      && x.Keys == r.Keys + ConvertedNames
      && (forall k :: k in r && k !in ConvertedNames ==> x[k] == r[k])
      && x[ConfidenceScore] == score && x[Status] == status && x[Sources] == sources
      && x[OriginalAddress] == original && x[VerifiedAddress] == verified && x[AddressChanged] == changed
      && x[Discrepancies] == discrepancies && x[RowNumber] == number
  {
  }

  /** Instantiates `ConversionEntries` with the values `Converted` stores. */
  lemma ConvertedEntries(r: Record, idx: nat)
    ensures
      var score := ConfidenceFromText(TextOf(r, ConfidenceScore, "0"));
      var original := GetField(r, OriginalAddress, GetField(r, Address, Cell(Str(""))));
      var verified := GetField(r, VerifiedAddress, GetField(r, Address, Cell(Str(""))));
      var c := Converted(r, idx);
      && c.Keys == r.Keys + ConvertedNames
      && (forall k :: k in r && k !in ConvertedNames ==> c[k] == r[k])
      && c[ConfidenceScore] == Cell(Int(score))
      && c[Status] == Cell(Str(NormalizeStatus(TextOf(r, Status, ""), score)))
      && c[Sources] == Items(StrItems(CommaList(TextOf(r, Sources, ""))))
      && c[OriginalAddress] == original
      && c[VerifiedAddress] == verified
      && c[AddressChanged] == Cell(Bool(AddressDiffers(TextIn(original, ""), TextIn(verified, ""))))
      && c[Discrepancies] == Items(StrItems(CommaList(TextOf(r, Discrepancies, ""))))
      && c[RowNumber] == Cell(Int(idx + 1))
  {
    var score := ConfidenceFromText(TextOf(r, ConfidenceScore, "0"));
    var original := GetField(r, OriginalAddress, GetField(r, Address, Cell(Str(""))));
    var verified := GetField(r, VerifiedAddress, GetField(r, Address, Cell(Str(""))));
    ConversionEntries(r, Cell(Int(score)), Cell(Str(NormalizeStatus(TextOf(r, Status, ""), score))),
                      Items(StrItems(CommaList(TextOf(r, Sources, "")))), original, verified,
                      Cell(Bool(AddressDiffers(TextIn(original, ""), TextIn(verified, "")))),
                      Items(StrItems(CommaList(TextOf(r, Discrepancies, "")))), Cell(Int(idx + 1)));
  }

  /** The conversions add eight keys and keep the other entries ... */
  lemma ConvertedKeys(r: Record, idx: nat)
    ensures Converted(r, idx).Keys == r.Keys + ConvertedNames
    ensures forall k :: k in r && k !in ConvertedNames ==> Converted(r, idx)[k] == r[k]
  {
    ConvertedEntries(r, idx);
  }

  /** ... the score and the status come from their texts ... */
  lemma ConvertedScoreStatus(r: Record, idx: nat)
    ensures var score := ConfidenceFromText(TextOf(r, ConfidenceScore, "0"));
      && Converted(r, idx)[ConfidenceScore] == Cell(Int(score))
      && Converted(r, idx)[Status] == Cell(Str(NormalizeStatus(TextOf(r, Status, ""), score)))
  {
    ConvertedEntries(r, idx);
  }

  /** ... the two lists from comma-separated texts ... */
  lemma ConvertedLists(r: Record, idx: nat)
    ensures Converted(r, idx)[Sources] == Items(StrItems(CommaList(TextOf(r, Sources, ""))))
    ensures Converted(r, idx)[Discrepancies] == Items(StrItems(CommaList(TextOf(r, Discrepancies, ""))))
  {
    ConvertedEntries(r, idx);
  }

  /** ... both addresses fall back to the address, and the change flag compares them ... */
  lemma ConvertedAddresses(r: Record, idx: nat)
    ensures var c := Converted(r, idx);
      && c[OriginalAddress] == GetField(r, OriginalAddress, GetField(r, Address, Cell(Str(""))))
      && c[VerifiedAddress] == GetField(r, VerifiedAddress, GetField(r, Address, Cell(Str(""))))
      && c[AddressChanged] == Cell(Bool(AddressDiffers(TextOf(c, OriginalAddress, ""), TextOf(c, VerifiedAddress, ""))))
  {
    ConvertedEntries(r, idx);
  }

  /** ... and the row number is 1-based. */
  lemma ConvertedRowNumber(r: Record, idx: nat)
    ensures Converted(r, idx)[RowNumber] == Cell(Int(idx + 1))
  {
    ConvertedEntries(r, idx);
  }

  /** A record built from standard fields has exactly the keys `UploadedKeys` ... */
  lemma RecordKeys(fields: Record, idx: nat)
    requires fields.Keys <= UploadedKeys
    ensures UploadedRecord(fields, idx).Keys == UploadedKeys
  {
    var w := WithDefaults(fields, idx);
    WithDefaultsKeys(fields, idx);
    ConvertedKeys(w, idx);
    KeysUnion(fields.Keys);
  }

  /** Standard fields, the defaulted keys and the converted keys make up `UploadedKeys`. */
  lemma KeysUnion(keys: set<FieldName>)
    requires keys <= UploadedKeys
    ensures keys + DefaultedKeys + ConvertedNames == UploadedKeys
  {
  }

  /** ... and its provider is the mapped provider or else the mapped NPI. */
  lemma RecordProvider(fields: Record, idx: nat)
    requires ProviderName in fields || Npi in fields
    ensures UploadedRecord(fields, idx)[ProviderName]
         == (if ProviderName in fields then fields[ProviderName] else fields[Npi])
  {
    var w := WithDefaults(fields, idx);
    WithDefaultsKeys(fields, idx);
    WithDefaultsProvider(fields, idx);
    assert ProviderName in w && ProviderName !in ConvertedNames;
    ConvertedKeys(w, idx);
  }

  /** A row parsed into a record with exactly the keys `UploadedKeys` whose
      provider is the mapped provider or else the mapped NPI. */
  predicate ParsedWithShape(cols: seq<string>, row: seq<Option<string>>, columnMap: seq<(string, FieldName)>, idx: nat)
    requires |row| == |cols|
    requires forall p :: p in columnMap ==> p.0 in cols
  {
    var fields := MappedFields(cols, row, columnMap);
    var out := RowOutcome(cols, row, columnMap, idx);
    && out.Parsed?
    && out.record.Keys == UploadedKeys
    && (ProviderName in fields || Npi in fields)
    && out.record[ProviderName] == (if ProviderName in fields then fields[ProviderName] else fields[Npi])
  }

  /** A column map of standard names with the provider or the NPI and no
      duplicate column, for a row of the right width. */
  predicate Recognised(cols: seq<string>, row: seq<Option<string>>, columnMap: seq<(string, FieldName)>) {
    && |row| == |cols|
    && (forall p :: p in columnMap ==> p.0 in cols)
    && StandardNames(columnMap) <= UploadedKeys
    && HasEssential(columnMap)
    && !Ambiguous(cols, columnMap)
  }

  /** Under such a column map the row is parsed into such a record. */
  lemma RowShape(cols: seq<string>, row: seq<Option<string>>, columnMap: seq<(string, FieldName)>, idx: nat)
    requires Recognised(cols, row, columnMap)
    ensures ParsedWithShape(cols, row, columnMap, idx)
  {
    var fields := MappedFields(cols, row, columnMap);
    EssentialFieldMapped(cols, row, columnMap);
    RecordKeys(fields, idx);
    RecordProvider(fields, idx);
  }

  /** A parsed row record has exactly the keys `UploadedKeys`, and its
      provider is the text of the provider column or else of the NPI
      column, never the positional placeholder. */
  lemma ParsedRowShape(cols: seq<string>, row: seq<Option<string>>, idx: nat)
    requires |row| == |cols|
    requires HasEssential(ColumnMap(cols))
    requires !Ambiguous(cols, ColumnMap(cols))
    ensures ParsedWithShape(cols, row, ColumnMap(cols), idx)
  {
    StandardNamesKnown(cols);
    RowShape(cols, row, ColumnMap(cols), idx);
  }

  /** The score is at most 100; a number in (1, 100] keeps its integer
      part, a number up to 1 is read as a fraction, a larger one scores 0;
      a non-negative number never scores below 0 and a number at or below
      -0.01 scores below 0. */
  lemma ConfidenceValueRange(x: real)
    ensures ConfidenceValue(x) <= 100
    ensures 1.0 < x <= 100.0 ==> ConfidenceValue(x) as real <= x < ConfidenceValue(x) as real + 1.0
    ensures 0.0 <= x <= 1.0 ==> ConfidenceValue(x) as real <= 100.0 * x < ConfidenceValue(x) as real + 1.0
    ensures x > 100.0 ==> ConfidenceValue(x) == 0
    ensures x >= 0.0 ==> ConfidenceValue(x) >= 0
    ensures x <= -0.01 ==> ConfidenceValue(x) < 0
  {
  }

  /** Empty or unparseable text scores 0, and no text scores above 100. */
  lemma ConfidenceFromTextRange(text: string)
    ensures ConfidenceFromText(text) <= 100
    ensures Strip(RemoveChar(text, '%')) == "" ==> ConfidenceFromText(text) == 0
    ensures ParseFloat(Strip(RemoveChar(text, '%'))).None? ==> ConfidenceFromText(text) == 0
  {
    var t := Strip(RemoveChar(text, '%'));
    if t != "" && ParseFloat(t).Some? {
      ConfidenceValueRange(ParseFloat(t).value);
    }
  }

  lemma {:induction false} DigitsNotSpace(s: string)
    requires forall i :: 0 <= i < |s| ==> '0' <= s[i] <= '9'
    ensures Strip(s) == s
    ensures RemoveChar(s, '%') == s
  {
    if s != [] {
      assert !IsSpace(s[0]) && !IsSpace(s[|s| - 1]);
      assert s[0] in s;
      assert '%' !in s;
    }
  }

  lemma {:induction false} RemoveCharConcat(a: string, b: string, c: char)
    ensures RemoveChar(a + b, c) == RemoveChar(a, c) + RemoveChar(b, c)
  {
    if a != [] {
      assert (a + b)[0] == a[0];
      assert (a + b)[1..] == a[1..] + b;
      RemoveCharConcat(a[1..], b, c);
      var h := if a[0] == c then [] else [a[0]];
      assert RemoveChar(a + b, c) == h + RemoveChar(a[1..] + b, c);
      assert RemoveChar(a, c) == h + RemoveChar(a[1..], c);
    } else {
      assert a + b == b;
    }
  }

  /** A whole percentage between 2 and 100 reads back as itself ... */
  lemma WholePercent(n: nat)
    requires 2 <= n <= 100
    ensures ConfidenceFromText(NatToString(n)) == n
  {
    WholeNumberText(n);
    assert ConfidenceValue(n as real) == n;
  }

  /** Removing the '%' from a number followed by '%' leaves the number. */
  lemma PercentSignRemoved(s: string)
    requires '%' !in s
    ensures RemoveChar(s + "%", '%') == s
  {
    RemoveCharConcat(s, "%", '%');
    assert RemoveChar("%", '%') == "";
  }

  /** A trailing '%' does not change the score. */
  lemma PercentSignIgnored(s: string)
    requires '%' !in s
    ensures ConfidenceFromText(s + "%") == ConfidenceFromText(s)
  {
    PercentSignRemoved(s);
  }

  lemma NumberPercentSign(n: nat)
    ensures ConfidenceFromText(NatToString(n) + "%") == ConfidenceFromText(NatToString(n))
  {
    DigitsNotSpace(NatToString(n));
    PercentSignIgnored(NatToString(n));
  }

  /** ... and so does it with a '%' sign. */
  lemma WholePercentSign(n: nat)
    requires 2 <= n <= 100
    ensures ConfidenceFromText(NatToString(n) + "%") == n
  {
    NumberPercentSign(n);
    WholePercent(n);
  }

  /** "1" is read as the fraction 1, that is 100. */
  lemma ConfidenceOne()
    ensures ConfidenceFromText("1") == 100
  {
    WholeNumberText(1);
    assert NatToString(1) == "1";
  }

  /** A number above 100 scores 0. */
  lemma ConfidenceAboveHundred(n: nat)
    requires n > 100
    ensures ConfidenceFromText(NatToString(n)) == 0
  {
    WholeNumberText(n);
  }

  /** The score of a text that reads as the number `x`. */
  lemma ConfidenceFromNumber(text: string, x: real)
    requires Strip(RemoveChar(text, '%')) != ""
    requires ParseFloat(Strip(RemoveChar(text, '%'))) == Some(x)
    ensures ConfidenceFromText(text) == ConfidenceValue(x)
  {
  }

  lemma WholeNumberText(n: nat)
    ensures ConfidenceFromText(NatToString(n)) == ConfidenceValue(n as real)
  {
    var s := NatToString(n);
    DigitsNotSpace(s);
    ParseNatural(n);
    ConfidenceFromNumber(s, n as real);
  }

  /** The status is always one of the three values ... */
  lemma StatusValues(raw: string, score: int)
    ensures NormalizeStatus(raw, score) in {"verified", "needs_review", "failed"}
  {
  }

  /** ... a known word decides it ... */
  lemma StatusFromWord(raw: string, score: int)
    ensures Lower(raw) in VerifiedWords ==> NormalizeStatus(raw, score) == "verified"
    ensures Lower(raw) !in VerifiedWords && Lower(raw) in ReviewWords ==> NormalizeStatus(raw, score) == "needs_review"
    ensures Lower(raw) !in VerifiedWords && Lower(raw) !in ReviewWords && Lower(raw) in FailedWords
            ==> NormalizeStatus(raw, score) == "failed"
  {
    StatusWordsIn(Lower(raw));
  }

  /** ... and otherwise the score thresholds 80 and 50 do. */
  lemma StatusFromScore(raw: string, score: int)
    requires Lower(raw) !in VerifiedWords && Lower(raw) !in ReviewWords && Lower(raw) !in FailedWords
    ensures NormalizeStatus(raw, score) == (if score >= 80 then "verified" else if score >= 50 then "needs_review" else "failed")
  {
    StatusWordsIn(Lower(raw));
  }

  /** Letter case does not matter for the status words. */
  lemma StatusIgnoresCase()
    ensures NormalizeStatus("Approved", 0) == "verified"
  {
    LowerApproved();
    StatusFromWord("Approved", 0);
  }

  /** The Kelvin sign lower-cases to 'k', so "chec" followed by it is the
      review word "check". */
  lemma StatusKelvinSign()
    ensures NormalizeStatus("chec\U{212A}", 0) == "needs_review"
  {
    assert Lower("chec\U{212A}") == "check";
    StatusFromWord("chec\U{212A}", 0);
    assert "check"[0] != "verified"[0] && "check"[0] != "pass"[0] && "check"[0] != "success"[0]
        && "check"[0] != "approved"[0] && "check"[0] != "valid"[0];
  }

  lemma LowerApproved()
    ensures Lower("Approved") == "approved"
  {
  }

  lemma {:induction false} NonBlankSpec(pieces: seq<string>)
    requires forall p :: p in pieces ==> ',' !in p
    ensures forall x :: x in NonBlank(pieces) ==> x != "" && Strip(x) == x && ',' !in x
    ensures forall p :: p in pieces && Strip(p) != "" ==> Strip(p) in NonBlank(pieces)
  {
    if pieces != [] {
      NonBlankSpec(pieces[1..]);
      var p := pieces[0];
      StripIdempotent(p);
      StripChars(p);
    }
  }

  /** The comma lists hold the non-blank pieces, each stripped, none
      containing a comma, and no non-blank piece is lost. */
  lemma CommaListSpec(text: string)
    ensures forall x :: x in CommaList(text) ==> x != "" && Strip(x) == x && ',' !in x
    ensures forall p :: p in Split(text, ',') && Strip(p) != "" ==> Strip(p) in CommaList(text)
  {
    if text != "" {
      NonBlankSpec(Split(text, ','));
    }
  }

  /** Text without a comma gives its stripped self, or nothing when blank. */
  lemma CommaListSingle(text: string)
    requires ',' !in text
    ensures CommaList(text) == (if Strip(text) == "" then [] else [Strip(text)])
  {
    if text != "" {
      SplitNoSeparator(text, ',');
      assert NonBlank([text]) == (if Strip(text) != "" then [Strip(text)] else []) + NonBlank([]);
    }
  }

  /** A change in letter case only is not a change of address. */
  lemma AddressDiffersIff(original: string, verified: string)
    ensures AddressDiffers(original, verified) <==> verified != "" && Lower(verified) != Lower(original)
  {
  }

  /** Accented Latin-1 capitals count as letter case too: "CAF\U{C9} ST" is
      "Caf\U{E9} St" unchanged. */
  lemma AccentedCaseUnchanged()
    ensures !AddressDiffers("Caf\U{E9} St", "CAF\U{C9} ST")
  {
    LowerCafe();
  }

  lemma LowerCafe()
    ensures Lower("Caf\U{E9} St") == "caf\U{E9} st" == Lower("CAF\U{C9} ST")
  {
    LowerEach("Caf\U{E9} St", "caf\U{E9} st");
    LowerEach("CAF\U{C9} ST", "caf\U{E9} st");
  }
}
