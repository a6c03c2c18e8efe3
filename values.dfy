/** The Python values that flow through the pipeline: the scalar cells
    of a warehouse row, their truthiness, their equality (which is also
    what hashing in a `set` or `dict` goes by), their `str()` text, the
    dictionaries built from them and order-preserving de-duplication as
    `list(dict.fromkeys(xs))` performs it. */
module Values {
  import opened Text

  /** A scalar: `None`, `bool`, `int`, `float` (an exact real here) or `str`. */
  datatype Value = Null | Bool(b: bool) | Int(i: int) | Float(x: real) | Str(s: string)

  /** An entry of a formatted record: a scalar or a list of scalars. */
  datatype Field = Cell(v: Value) | Items(items: seq<Value>)

  /** A row as a dictionary from column name to scalar. */
  type Row = map<string, Value>

  /** The keys of the output dictionaries, each standing for the string shown by `FieldText`. */
  datatype FieldName =
    | ProviderName | Npi | Address | OriginalAddress | VerifiedAddress
    | City | State | ZipCode | Specialty | Phone
    | Email | Fax | ConfidenceScore | Status | Sources
    | AddressChanged | Discrepancies | OperationalStatus | Rank | OperatingHours
    | RowNumber

  function FieldText(f: FieldName): string {
    match f
    case ProviderName => "provider_name"
    case Npi => "npi"
    case Address => "address"
    case OriginalAddress => "original_address"
    case VerifiedAddress => "verified_address"
    case City => "city"
    case State => "state"
    case ZipCode => "zip_code"
    case Specialty => "specialty"
    case Phone => "phone"
    case Email => "email"
    case Fax => "fax"
    case ConfidenceScore => "confidence_score"
    case Status => "status"
    case Sources => "sources"
    case AddressChanged => "address_changed"
    case Discrepancies => "discrepancies"
    case OperationalStatus => "operational_status"
    case Rank => "rank"
    case OperatingHours => "operating_hours"
    case RowNumber => "row_number"
  }

  /** A formatted record as a dictionary from key to entry. */
  type Record = map<FieldName, Field>

  /** Python's `bool(v)`. */
  predicate Truthy(v: Value) {
    match v
    case Null => false
    case Bool(b) => b
    case Int(i) => i != 0
    case Float(x) => x != 0.0
    case Str(s) => s != ""
  }

  /** `a or b`. */
  function Or(a: Value, b: Value): (r: Value)
    ensures Truthy(a) ==> r == a
    ensures !Truthy(a) ==> r == b
  {
    if Truthy(a) then a else b
  }

  /** `d.get(k, default)`. */
  function Get(d: Row, k: string, default: Value): (r: Value)
    ensures k in d ==> r == d[k]
    ensures k !in d ==> r == default
  {
    if k in d then d[k] else default
  }

  /** `d.get(k, default)` on a formatted record. */
  function GetField(d: Record, k: FieldName, default: Field): (r: Field)
    ensures k in d ==> r == d[k]
    ensures k !in d ==> r == default
  {
    if k in d then d[k] else default
  }

  /** What Python's `==` and `hash` see of a scalar: booleans are the
      numbers 0 and 1, and ints and floats compare by value. */
  datatype HashKey = NoneKey | NumKey(x: real) | StrKey(s: string)

  function Key(v: Value): HashKey {
    match v
    case Null => NoneKey
    case Bool(b) => NumKey(if b then 1.0 else 0.0)
    case Int(i) => NumKey(i as real)
    case Float(x) => NumKey(x)
    case Str(s) => StrKey(s)
  }

  /** Python's `a == b` on scalars. */
  predicate PyEq(a: Value, b: Value) {
    Key(a) == Key(b)
  }

  /** Equality with a string literal holds for that very string only. */
  lemma PyEqStr(v: Value, s: string)
    ensures PyEq(v, Str(s)) <==> v == Str(s)
  {
  }

  /** Truncation toward zero, as `int(x)` does for a float. */
  function Trunc(x: real): (r: int)
    ensures x >= 0.0 ==> r as real <= x < r as real + 1.0
    ensures x < 0.0 ==> r as real - 1.0 < x <= r as real
  {
    if x >= 0.0 then x.Floor else -((-x).Floor)
  }

  /** `str(v)`. A float is shown by its truncated integer part and ".0",
      which is Python's text for every integral float below 10^16. */
  function Show(v: Value): string {
    match v
    case Null => "None"
    case Bool(b) => if b then "True" else "False"
    case Int(i) => IntToString(i)
    case Float(x) => IntToString(Trunc(x)) + ".0"
    case Str(s) => s
  }

  function KeysOf(s: seq<Value>): set<HashKey> {
    set v | v in s :: Key(v)
  }

  /** No two entries are equal in Python's sense. */
  predicate DistinctKeys(s: seq<Value>) {
    forall i, j :: 0 <= i < j < |s| ==> Key(s[i]) != Key(s[j])
  }

  /** The scan `list(dict.fromkeys(s))` performs, with `seen` the keys
      already in the dictionary: a value is kept when no equal value was
      kept before it. */
  function DedupFrom(s: seq<Value>, seen: set<HashKey>): (r: seq<Value>)
    ensures forall v :: v in r ==> v in s && Key(v) !in seen
    ensures DistinctKeys(r)
    ensures KeysOf(r) == KeysOf(s) - seen
  {
    if s == [] then []
    else if Key(s[0]) in seen then
      assert KeysOf(s) == {Key(s[0])} + KeysOf(s[1..]);
      DedupFrom(s[1..], seen)
    else
      var rest := DedupFrom(s[1..], seen + {Key(s[0])});
      assert KeysOf(s) == {Key(s[0])} + KeysOf(s[1..]);
      assert KeysOf([s[0]] + rest) == {Key(s[0])} + KeysOf(rest);
      [s[0]] + rest
  }

  /** `list(dict.fromkeys(s))`. */
  function Dedup(s: seq<Value>): seq<Value> {
    DedupFrom(s, {})
  }

  /** Independent reference: walking from the back, the last value is
      kept exactly when no equal value precedes it. */
  function FirstOccurrences(s: seq<Value>): seq<Value> {
    if s == [] then []
    else
      var init := s[..|s| - 1];
      FirstOccurrences(init) + (if Key(s[|s| - 1]) in KeysOf(init) then [] else [s[|s| - 1]])
  }

  lemma {:induction false} DedupFromSnoc(s: seq<Value>, x: Value, seen: set<HashKey>)
    ensures DedupFrom(s + [x], seen)
         == DedupFrom(s, seen) + (if Key(x) in seen + KeysOf(s) then [] else [x])
  {
    if s == [] {
      assert [x][1..] == [];
    } else {
      var t := s + [x];
      assert t[0] == s[0];
      assert t[1..] == s[1..] + [x];
      assert KeysOf(s) == {Key(s[0])} + KeysOf(s[1..]);
      var tail := if Key(x) in seen + KeysOf(s) then [] else [x];
      if Key(s[0]) in seen {
        DedupFromSnoc(s[1..], x, seen);
        assert seen + KeysOf(s[1..]) == seen + KeysOf(s);
        assert DedupFrom(t, seen) == DedupFrom(s[1..] + [x], seen);
      } else {
        var seen' := seen + {Key(s[0])};
        DedupFromSnoc(s[1..], x, seen');
        assert seen' + KeysOf(s[1..]) == seen + KeysOf(s);
        assert DedupFrom(t, seen) == [s[0]] + DedupFrom(s[1..] + [x], seen');
        assert DedupFrom(s, seen) == [s[0]] + DedupFrom(s[1..], seen');
        ConsAppend(s[0], DedupFrom(s[1..], seen'), tail);
      }
    }
  }

  lemma ConsAppend(a: Value, b: seq<Value>, c: seq<Value>)
    ensures [a] + (b + c) == ([a] + b) + c
  {
  }

  /** De-duplication keeps, in order, exactly the first occurrence of each value. */
  lemma {:induction false} DedupIsFirstOccurrences(s: seq<Value>)
    ensures Dedup(s) == FirstOccurrences(s)
  {
    if s != [] {
      var init := s[..|s| - 1];
      assert s == init + [s[|s| - 1]];
      DedupIsFirstOccurrences(init);
      DedupFromSnoc(init, s[|s| - 1], {});
    }
  }

  /** The result holds no duplicates and loses no value. */
  lemma DedupSpec(s: seq<Value>)
    ensures DistinctKeys(Dedup(s))
    ensures KeysOf(Dedup(s)) == KeysOf(s)
    ensures forall v :: v in Dedup(s) ==> v in s
    ensures s != [] ==> Dedup(s) != [] && Dedup(s)[0] == s[0]
  {
  }

  /** A list without duplicates is left as it is, so de-duplication is idempotent. */
  lemma {:induction false} DedupDistinct(s: seq<Value>, seen: set<HashKey>)
    requires DistinctKeys(s)
    requires KeysOf(s) !! seen
    ensures DedupFrom(s, seen) == s
  {
    if s != [] {
      assert Key(s[0]) in KeysOf(s);
      assert KeysOf(s) == {Key(s[0])} + KeysOf(s[1..]);
      assert Key(s[0]) !in KeysOf(s[1..]);
      DedupDistinct(s[1..], seen + {Key(s[0])});
    }
  }

  lemma DedupIdempotent(s: seq<Value>)
    ensures Dedup(Dedup(s)) == Dedup(s)
  {
    DedupDistinct(Dedup(s), {});
  }

  // ---- per-element outcomes of a parse ---------------------------------------

  datatype Option<T> = None | Some(value: T)

  /** What one input element (a JSON object or an uploaded row) turns into. */
  datatype Outcome = Parsed(record: Record) | Rejected(message: string)

  function ParsedRecords(outs: seq<Outcome>): seq<Record> {
    if outs == [] then []
    else
      var last := outs[|outs| - 1];
      ParsedRecords(outs[..|outs| - 1]) + (if last.Parsed? then [last.record] else [])
  }

  function ErrorMessages(outs: seq<Outcome>): seq<string> {
    if outs == [] then []
    else
      var last := outs[|outs| - 1];
      ErrorMessages(outs[..|outs| - 1]) + (if last.Rejected? then [last.message] else [])
  }

  lemma PrefixStep(outs: seq<Outcome>, k: nat)
    requires k < |outs|
    ensures ParsedRecords(outs[..k + 1])
         == ParsedRecords(outs[..k]) + (if outs[k].Parsed? then [outs[k].record] else [])
    ensures ErrorMessages(outs[..k + 1])
         == ErrorMessages(outs[..k]) + (if outs[k].Rejected? then [outs[k].message] else [])
  {
    assert outs[..k + 1][..k] == outs[..k];
  }

  /** Every element yields exactly one record or one message. */
  lemma {:induction false} OneOutcomeEach(outs: seq<Outcome>)
    ensures |ParsedRecords(outs)| + |ErrorMessages(outs)| == |outs|
  {
    if outs != [] {
      OneOutcomeEach(outs[..|outs| - 1]);
    }
  }

  lemma {:induction false} AllParsed(outs: seq<Outcome>)
    requires forall i :: 0 <= i < |outs| ==> outs[i].Parsed?
    ensures |ParsedRecords(outs)| == |outs|
    ensures forall i :: 0 <= i < |outs| ==> ParsedRecords(outs)[i] == outs[i].record
    ensures ErrorMessages(outs) == []
  {
    if outs != [] {
      AllParsed(outs[..|outs| - 1]);
    }
  }

  lemma {:induction false} AllRejected(outs: seq<Outcome>)
    requires forall i :: 0 <= i < |outs| ==> outs[i].Rejected?
    ensures ParsedRecords(outs) == []
    ensures |ErrorMessages(outs)| == |outs|
    ensures forall i :: 0 <= i < |outs| ==> ErrorMessages(outs)[i] == outs[i].message
  {
    if outs != [] {
      AllRejected(outs[..|outs| - 1]);
    }
  }
}
