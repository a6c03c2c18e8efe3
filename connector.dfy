/** `DatabricksConnector` of utils/databricks_connector.py: the table-list
    cache with its time-to-live, the table listing with its name-pattern
    filter, and `load_table_data` with its query text and its conversion
    of result rows into dictionaries. The SQL warehouse, the clock and the
    regular-expression engine are parameters. */
module Connector {
  import opened Text
  import opened Values

  // ---- what the warehouse returns -------------------------------------------

  /** A cell of a result row: a JSON-friendly scalar, or another Python
      object (a date, a decimal, ...) shown by its `str()` text. */
  datatype DbCell = Scalar(v: Value) | Other(text: string)

  /** The value stored for a cell: scalars pass, other objects become their text. */
  function Convert(c: DbCell): Value {
    match c
    case Scalar(v) => v
    case Other(t) => Str(t)
  }

  /** A cell inside an f-string. */
  function CellText(c: DbCell): string {
    match c
    case Scalar(v) => Show(v)
    case Other(t) => t
  }

  /** The result of executing one statement: its exception's text, or the
      column names of `cursor.description` with the fetched rows. */
  datatype QueryResult = Failed(reason: string) | Rows(columns: seq<string>, rows: seq<seq<DbCell>>)

  /** The warehouse: whether connecting raises, and what each statement returns. */
  datatype Warehouse = Warehouse(connectError: Option<string>, execute: string -> QueryResult)

  /** `re.search(pattern, name, re.IGNORECASE)`: whether it matches, or None for a bad pattern. */
  type Search = (string, string) -> Option<bool>

  // ---- the table-list cache ---------------------------------------------------

  /** One entry of `list_available_tables`. */
  datatype TableInfo = TableInfo(
    fullName: string, catalog: DbCell, schema: DbCell, tableName: DbCell,
    tableType: DbCell, rowCount: DbCell)

  /** Clock readings are microseconds, the resolution of `datetime`. */
  const MicrosPerMinute: int := 60_000_000

  /** `_is_cache_valid` on the two cache fields. */
  predicate CacheValid(cache: Option<seq<TableInfo>>, timestamp: Option<int>, minutes: int, now: int) {
    cache.Some? && timestamp.Some? && now - timestamp.value < minutes * MicrosPerMinute
  }

  /** `x or []` on an optional list. */
  function OrEmpty(xs: Option<seq<string>>): seq<string> {
    if xs.Some? then xs.value else []
  }

  /** A truthy pattern: present and not empty. */
  predicate PatternActive(pattern: Option<string>) {
    pattern.Some? && pattern.value != ""
  }

  // ---- the listing query --------------------------------------------------------

  function Spaces(n: nat): string {
    seq(n, _ => ' ')
  }

  /** `sep.join(pieces)`. */
  function JoinWith(pieces: seq<string>, sep: string): string {
    if pieces == [] then ""
    else if |pieces| == 1 then pieces[0]
    else JoinWith(pieces[..|pieces| - 1], sep) + sep + pieces[|pieces| - 1]
  }

  /** A catalog or schema restriction; empty when nothing is configured. */
  function InFilter(column: string, names: seq<string>): string {
    if names == [] then "" else "AND " + column + " IN ('" + JoinWith(names, "', '") + "')"
  }

  /** The listing query, laid out as the triple-quoted f-string is: a fixed
      head, the two filters, the exclusion of the information schema and a
      fixed tail. */
  function ListQuery(catalogs: seq<string>, schemas: seq<string>): string {
    ListQueryHead
    + Spaces(18) + InFilter("table_catalog", catalogs) + "\n"
    + Spaces(18) + InFilter("table_schema", schemas) + "\n"
    + Spaces(18) + (SchemaExclusion + ListQueryTail)
  }

  const ListQueryHead: string :=
    "\n" + Spaces(16) + "SELECT \n"
    + Spaces(20) + "table_catalog,\n"
    + Spaces(20) + "table_schema,\n"
    + Spaces(20) + "table_name,\n"
    + Spaces(20) + "table_type\n"
    + Spaces(16) + "FROM system.information_schema.tables\n"
    + Spaces(16) + "WHERE 1=1\n"

  const SchemaExclusion: string := "AND table_schema != 'information_schema'"

  const ListQueryTail: string :=
    "\n" + Spaces(16) + "ORDER BY table_catalog, table_schema, table_name\n" + Spaces(12)

  // ---- the listing loop -----------------------------------------------------------

  /** The patterns of `table_pattern.split(',')`, each stripped. */
  function Patterns(pattern: string): (ps: seq<string>)
    ensures |ps| == |Split(pattern, ',')|
    ensures forall i :: 0 <= i < |ps| ==> ps[i] == Strip(Split(pattern, ',')[i])
  {
    var pieces := Split(pattern, ',');
    seq(|pieces|, i requires 0 <= i < |pieces| => Strip(pieces[i]))
  }

  /** `any(re.search(p, name, re.IGNORECASE) for p in patterns)`, which stops
      at the first match; None where a search raises first. */
  function AnyMatch(patterns: seq<string>, name: string, search: Search): Option<bool> {
    if patterns == [] then Some(false)
    else match search(patterns[0], name)
      case None => None
      case Some(true) => Some(true)
      case Some(false) => AnyMatch(patterns[1..], name, search)
  }

  /** `count_result[0]` of `SELECT COUNT(*)`, or None when the statement
      raises or returns nothing. */
  function RowCount(w: Warehouse, fullName: string): DbCell {
    match w.execute("SELECT COUNT(*) FROM " + fullName)
    case Failed(_) => Scalar(Null)
    case Rows(_, rs) => if rs == [] || rs[0] == [] then Scalar(Null) else rs[0][0]
  }

  /** What one listed row gives. */
  datatype Step = Skip | Keep(info: TableInfo)

  /** The entry listed for a row of four cells. */
  function Entry(row: seq<DbCell>, w: Warehouse): TableInfo
    requires |row| == 4
  {
    var fullName := CellText(row[0]) + "." + CellText(row[1]) + "." + CellText(row[2]);
    TableInfo(fullName, row[0], row[1], row[2], row[3], RowCount(w, fullName))
  }

  /** One pass of the listing loop; None where it raises: a row without four
      cells cannot be unpacked, and a name that is not text cannot be searched. */
  function RowStep(row: seq<DbCell>, pattern: Option<string>, search: Search, w: Warehouse): Option<Step> {
    if |row| != 4 then None
    else if !PatternActive(pattern) then Some(Keep(Entry(row, w)))
    else if !(row[2].Scalar? && row[2].v.Str?) then None
    else match AnyMatch(Patterns(pattern.value), row[2].v.s, search)
      case None => None
      case Some(false) => Some(Skip)
      case Some(true) => Some(Keep(Entry(row, w)))
  }

  /** The entries of the kept rows in order; None once a row raises. */
  function TablesFrom(rows: seq<seq<DbCell>>, pattern: Option<string>, search: Search, w: Warehouse): Option<seq<TableInfo>> {
    if rows == [] then Some([])
    else
      var init := TablesFrom(rows[..|rows| - 1], pattern, search, w);
      var step := RowStep(rows[|rows| - 1], pattern, search, w);
      if init.None? || step.None? then None
      else Some(init.value + (if step.value.Keep? then [step.value.info] else []))
  }

  /** The listing a refresh computes; None where the `try` block raises. */
  function ListTables(w: Warehouse, catalogs: seq<string>, schemas: seq<string>,
                      pattern: Option<string>, search: Search): Option<seq<TableInfo>> {
    if w.connectError.Some? then None
    else match w.execute(ListQuery(catalogs, schemas))
      case Failed(_) => None
      case Rows(_, rows) => TablesFrom(rows, pattern, search, w)
  }

  // ---- loading a table ------------------------------------------------------------

  /** `csv_file_id` in a condition: present and not empty. */
  predicate IdGiven(csvFileId: Option<string>) {
    csvFileId.Some? && csvFileId.value != ""
  }

  /** `limit` in a condition: present and not zero. */
  predicate LimitGiven(limit: Option<int>) {
    limit.Some? && limit.value != 0
  }

  /** The dictionary built for one row: each column in turn is set to its
      cell, so a repeated column keeps its last cell. */
  function RowDict(columns: seq<string>, row: seq<DbCell>): Row
    requires |columns| <= |row|
  {
    if columns == [] then map[]
    else
      var n := |columns| - 1;
      RowDict(columns[..n], row)[columns[n] := Convert(row[n])]
  }

  /** The converted rows; None when a row is shorter than the column list,
      where `row[i]` raises. */
  function ConvertedRows(columns: seq<string>, rows: seq<seq<DbCell>>): Option<seq<Row>> {
    if rows == [] then Some([])
    else
      var init := ConvertedRows(columns, rows[..|rows| - 1]);
      var row := rows[|rows| - 1];
      if init.None? || |row| < |columns| then None
      else Some(init.value + [RowDict(columns, row)])
  }

  /** What `load_table_data` returns, or the text of the exception it raises. */
  datatype Loaded = Data(rows: seq<Row>) | LoadError(message: string)

  const LoadErrorPrefix: string := "Error loading table data: "

  /** The text of `IndexError` for a row shorter than the columns. */
  const IndexErrorText: string := "tuple index out of range"

  /** The text of the query `load_table_data` sends. */
  function TableQuery(tableName: string, limit: Option<int>, csvFileId: Option<string>): string {
    "SELECT * FROM " + tableName
    + (if IdGiven(csvFileId) then " WHERE csv_file_id = '" + csvFileId.value + "'" else "")
    + (if LimitGiven(limit) then " LIMIT " + IntToString(limit.value) else "")
  }

  /** `load_table_data` against a warehouse. */
  function LoadTable(w: Warehouse, tableName: string, limit: Option<int>, csvFileId: Option<string>): Loaded {
    if w.connectError.Some? then LoadError(LoadErrorPrefix + w.connectError.value)
    else match w.execute(TableQuery(tableName, limit, csvFileId))
      case Failed(reason) => LoadError(LoadErrorPrefix + reason)
      case Rows(columns, rows) =>
        var converted := ConvertedRows(columns, rows);
        if converted.None? then LoadError(LoadErrorPrefix + IndexErrorText) else Data(converted.value)
  }

  // ---- the connector -----------------------------------------------------------------

  class DatabricksConnector {
    const catalogs: seq<string>
    const schemas: seq<string>
    const tablePattern: Option<string>
    /** Minutes a listing stays cached. */
    const cacheDuration: int
    var tableCache: Option<seq<TableInfo>>
    var cacheTimestamp: Option<int>

    /** `__init__`: missing catalog and schema lists become empty, the cache starts empty. */
    constructor (catalogs: Option<seq<string>>, schemas: Option<seq<string>>, tablePattern: Option<string>, cacheDuration: int)
      ensures this.catalogs == OrEmpty(catalogs) && this.schemas == OrEmpty(schemas)
      ensures this.tablePattern == tablePattern && this.cacheDuration == cacheDuration
      ensures tableCache == None && cacheTimestamp == None
    {
      this.catalogs := OrEmpty(catalogs);
      this.schemas := OrEmpty(schemas);
      this.tablePattern := tablePattern;
      this.cacheDuration := cacheDuration;
      tableCache := None;
      cacheTimestamp := None;
    }

    /** `_is_cache_valid` at clock reading `now`. */
    predicate IsCacheValid(now: int)
      reads this
    {
      CacheValid(tableCache, cacheTimestamp, cacheDuration, now)
    }

    /** `list_available_tables`: `now` is the clock when the cache is
        checked, `stamp` the clock when a fresh listing is stored. A valid
        cache is returned as it is unless a refresh is forced; a refresh that
        raises returns nothing and leaves the cache alone; one that succeeds
        replaces the cache and its timestamp. */
    method ListAvailableTables(forceRefresh: bool, now: int, stamp: int, w: Warehouse, search: Search)
      returns (tables: seq<TableInfo>)
      modifies this
      ensures !forceRefresh && old(IsCacheValid(now)) ==>
        tables == old(tableCache).value && unchanged(this)
      ensures (forceRefresh || !old(IsCacheValid(now))) ==>
        var listed := ListTables(w, catalogs, schemas, tablePattern, search);
        if listed.Some? then
          tables == listed.value && tableCache == Some(tables) && cacheTimestamp == Some(stamp)
        else
          tables == [] && unchanged(this)
    {
      if !forceRefresh && IsCacheValid(now) {
        return tableCache.value;
      }
      if w.connectError.Some? {
        return [];
      }
      var result := w.execute(ListQuery(catalogs, schemas));
      if result.Failed? {
        return [];
      }
      var listed := CollectTables(result.rows, w, search);
      if listed.None? {
        return [];
      }
      tables := listed.value;
      tableCache := Some(tables);
      cacheTimestamp := Some(stamp);
    }

    /** The `for row in rows` loop of the listing. */
    method CollectTables(rows: seq<seq<DbCell>>, w: Warehouse, search: Search) returns (listed: Option<seq<TableInfo>>)
      ensures listed == TablesFrom(rows, tablePattern, search, w)
    {
      var tables: seq<TableInfo> := [];
      var i := 0;
      while i < |rows|
        invariant 0 <= i <= |rows|
        invariant TablesFrom(rows[..i], tablePattern, search, w) == Some(tables)
      {
        TablesFromStep(rows, i, tablePattern, search, w);
        var step := RowStep(rows[i], tablePattern, search, w);
        if step.None? {
          TablesFromFails(rows, i + 1, tablePattern, search, w);
          return None;
        }
        tables := tables + (if step.value.Keep? then [step.value.info] else []);
        assert TablesFrom(rows[..i + 1], tablePattern, search, w) == Some(tables);
        i := i + 1;
      }
      assert rows[..i] == rows;
      listed := Some(tables);
    }

    /** `load_table_data`: the query grows clause by clause, then every row
        becomes a dictionary. */
    method LoadTableData(tableName: string, limit: Option<int>, csvFileId: Option<string>, w: Warehouse)
      returns (result: Loaded)
      ensures result == LoadTable(w, tableName, limit, csvFileId)
    {
      if w.connectError.Some? {
        return LoadError(LoadErrorPrefix + w.connectError.value);
      }
      var query := BuildTableQuery(tableName, limit, csvFileId);
      var answer := w.execute(query);
      if answer.Failed? {
        return LoadError(LoadErrorPrefix + answer.reason);
      }
      var data := ConvertRows(answer.columns, answer.rows);
      if data.None? {
        return LoadError(LoadErrorPrefix + IndexErrorText);
      }
      result := Data(data.value);
    }
  }

  /** The query of `load_table_data`, extended clause by clause. */
  method BuildTableQuery(tableName: string, limit: Option<int>, csvFileId: Option<string>) returns (query: string)
    ensures query == TableQuery(tableName, limit, csvFileId)
  {
    query := "SELECT * FROM " + tableName;
    if IdGiven(csvFileId) {
      query := query + " WHERE csv_file_id = '" + csvFileId.value + "'";
    }
    if LimitGiven(limit) {
      query := query + " LIMIT " + IntToString(limit.value);
    }
  }

  /** The `for row in rows` loop of `load_table_data`. */
  method ConvertRows(columns: seq<string>, rows: seq<seq<DbCell>>) returns (data: Option<seq<Row>>)
    ensures data == ConvertedRows(columns, rows)
  {
    var out: seq<Row> := [];
    var i := 0;
    while i < |rows|
      invariant 0 <= i <= |rows|
      invariant ConvertedRows(columns, rows[..i]) == Some(out)
    {
      assert rows[..i + 1][..i] == rows[..i];
      var rowDict := ConvertRow(columns, rows[i]);
      if rowDict.None? {
        ConvertedRowsFails(columns, rows, i + 1);
        return None;
      }
      out := out + [rowDict.value];
      i := i + 1;
    }
    assert rows[..i] == rows;
    data := Some(out);
  }

  /** The `for i, col in enumerate(columns)` loop; None where `row[i]` raises. */
  method ConvertRow(columns: seq<string>, row: seq<DbCell>) returns (d: Option<Row>)
    ensures |row| < |columns| ==> d == None
    ensures |columns| <= |row| ==> d == Some(RowDict(columns, row))
  {
    var rowDict: Row := map[];
    var i := 0;
    while i < |columns|
      invariant 0 <= i <= |columns|
      invariant i <= |row| ==> rowDict == RowDict(columns[..i], row)
      invariant i <= |row|
    {
      if i >= |row| {
        return None;
      }
      assert columns[..i + 1][..i] == columns[..i];
      rowDict := rowDict[columns[i] := Convert(row[i])];
      i := i + 1;
    }
    assert columns[..i] == columns;
    d := Some(rowDict);
  }

  // ---- properties of the cache ----------------------------------------------------------

  /** Without a stored listing or without a timestamp the cache is never valid. */
  lemma CacheNeedsBoth(cache: Option<seq<TableInfo>>, timestamp: Option<int>, minutes: int, now: int)
    requires cache.None? || timestamp.None?
    ensures !CacheValid(cache, timestamp, minutes, now)
  {
  }

  /** A stored listing is valid exactly while less than the duration has elapsed. */
  lemma CacheWindow(cache: seq<TableInfo>, timestamp: int, minutes: int, now: int)
    ensures CacheValid(Some(cache), Some(timestamp), minutes, now)
            <==> now < timestamp + minutes * MicrosPerMinute
  {
  }

  /** Validity only ends: a cache valid at some reading was valid at every earlier one. */
  lemma CacheMonotone(cache: Option<seq<TableInfo>>, timestamp: Option<int>, minutes: int, earlier: int, later: int)
    requires earlier <= later && CacheValid(cache, timestamp, minutes, later)
    ensures CacheValid(cache, timestamp, minutes, earlier)
  {
  }

  /** Right after a refresh the cache is valid exactly when the duration is positive. */
  lemma FreshCache(cache: seq<TableInfo>, stamp: int, minutes: int)
    ensures CacheValid(Some(cache), Some(stamp), minutes, stamp) <==> minutes > 0
  {
  }

  // ---- properties of the listing -----------------------------------------------------------

  /** The search stops at the first pattern that matches: it reports a match
      exactly when some pattern matches and every earlier one was searched
      without a match. */
  lemma {:induction false} AnyMatchFirst(patterns: seq<string>, name: string, search: Search)
    ensures AnyMatch(patterns, name, search) == Some(true) <==>
      exists i :: 0 <= i < |patterns| && search(patterns[i], name) == Some(true)
        && forall j :: 0 <= j < i ==> search(patterns[j], name) == Some(false)
  {
    if patterns != [] {
      AnyMatchFirst(patterns[1..], name, search);
      if search(patterns[0], name) == Some(false) {
        if AnyMatch(patterns, name, search) == Some(true) {
          var i :| 0 <= i < |patterns| - 1 && search(patterns[1..][i], name) == Some(true)
            && forall j :: 0 <= j < i ==> search(patterns[1..][j], name) == Some(false);
          assert forall j :: 0 <= j < i + 1 ==> search(patterns[j], name) == Some(false) by {
            forall j | 0 <= j < i + 1 ensures search(patterns[j], name) == Some(false) {
              if j > 0 { assert patterns[j] == patterns[1..][j - 1]; }
            }
          }
          assert search(patterns[i + 1], name) == Some(true);
        }
        if exists i :: 0 <= i < |patterns| && search(patterns[i], name) == Some(true)
                       && forall j :: 0 <= j < i ==> search(patterns[j], name) == Some(false) {
          var i :| 0 <= i < |patterns| && search(patterns[i], name) == Some(true)
                   && forall j :: 0 <= j < i ==> search(patterns[j], name) == Some(false);
          assert i > 0;
          assert forall j :: 0 <= j < i - 1 ==> search(patterns[1..][j], name) == Some(false) by {
            forall j | 0 <= j < i - 1 ensures search(patterns[1..][j], name) == Some(false) {
              assert patterns[1..][j] == patterns[j + 1];
            }
          }
          assert search(patterns[1..][i - 1], name) == Some(true);
        }
      } else if search(patterns[0], name) == Some(true) {
        assert search(patterns[0], name) == Some(true);
      }
    }
  }

  /** When no search raises, a name matches exactly when one of the patterns does. */
  lemma {:induction false} AnyMatchNoErrors(patterns: seq<string>, name: string, search: Search)
    requires forall i :: 0 <= i < |patterns| ==> search(patterns[i], name).Some?
    ensures AnyMatch(patterns, name, search)
         == Some(exists i :: 0 <= i < |patterns| && search(patterns[i], name) == Some(true))
  {
    if patterns != [] {
      assert forall i :: 0 <= i < |patterns| - 1 ==> patterns[1..][i] == patterns[i + 1];
      AnyMatchNoErrors(patterns[1..], name, search);
      if search(patterns[0], name) == Some(false) {
        if exists i :: 0 <= i < |patterns| && search(patterns[i], name) == Some(true) {
          var i :| 0 <= i < |patterns| && search(patterns[i], name) == Some(true);
          assert search(patterns[1..][i - 1], name) == Some(true);
        }
      }
    }
  }

  /** With an active pattern and searches that do not raise, a listed row is
      kept exactly when one of the comma-separated, stripped patterns matches
      its table name. */
  lemma PatternFilter(row: seq<DbCell>, pattern: Option<string>, search: Search, w: Warehouse)
    requires |row| == 4 && row[2].Scalar? && row[2].v.Str?
    requires PatternActive(pattern)
    requires forall i :: 0 <= i < |Patterns(pattern.value)| ==> search(Patterns(pattern.value)[i], row[2].v.s).Some?
    ensures RowStep(row, pattern, search, w).Some?
    ensures RowStep(row, pattern, search, w).value.Keep? <==>
      exists i :: 0 <= i < |Patterns(pattern.value)| && search(Patterns(pattern.value)[i], row[2].v.s) == Some(true)
  {
    AnyMatchNoErrors(Patterns(pattern.value), row[2].v.s, search);
  }

  /** The entries of every row, in order. */
  function Entries(rows: seq<seq<DbCell>>, w: Warehouse): seq<TableInfo>
    requires forall i :: 0 <= i < |rows| ==> |rows[i]| == 4
  {
    if rows == [] then [] else Entries(rows[..|rows| - 1], w) + [Entry(rows[|rows| - 1], w)]
  }

  lemma {:induction false} EntriesLength(rows: seq<seq<DbCell>>, w: Warehouse)
    requires forall i :: 0 <= i < |rows| ==> |rows[i]| == 4
    ensures |Entries(rows, w)| == |rows|
  {
    if rows != [] {
      EntriesLength(rows[..|rows| - 1], w);
    }
  }

  lemma {:induction false} EntryAt(rows: seq<seq<DbCell>>, w: Warehouse, i: nat)
    requires forall i :: 0 <= i < |rows| ==> |rows[i]| == 4
    requires i < |rows|
    ensures |Entries(rows, w)| == |rows|
    ensures Entries(rows, w)[i] == Entry(rows[i], w)
  {
    var n := |rows| - 1;
    EntriesLength(rows, w);
    EntriesLength(rows[..n], w);
    if i < n {
      EntryAt(rows[..n], w, i);
      assert rows[..n][i] == rows[i];
    }
  }

  /** Without a pattern every row of four cells is listed, in the order the query returned them. */
  lemma NoPatternKeepsAll(rows: seq<seq<DbCell>>, pattern: Option<string>, search: Search, w: Warehouse)
    requires !PatternActive(pattern)
    requires forall i :: 0 <= i < |rows| ==> |rows[i]| == 4
    ensures TablesFrom(rows, pattern, search, w).Some?
    ensures |TablesFrom(rows, pattern, search, w).value| == |rows|
    ensures forall i :: 0 <= i < |rows| ==> TablesFrom(rows, pattern, search, w).value[i] == Entry(rows[i], w)
  {
    NoPatternListsEntries(rows, pattern, search, w);
    EntriesLength(rows, w);
    forall i | 0 <= i < |rows|
      ensures TablesFrom(rows, pattern, search, w).value[i] == Entry(rows[i], w)
    {
      EntryAt(rows, w, i);
    }
  }

  lemma {:induction false} NoPatternListsEntries(rows: seq<seq<DbCell>>, pattern: Option<string>, search: Search, w: Warehouse)
    requires !PatternActive(pattern)
    requires forall i :: 0 <= i < |rows| ==> |rows[i]| == 4
    ensures TablesFrom(rows, pattern, search, w) == Some(Entries(rows, w))
  {
    if rows != [] {
      var n := |rows| - 1;
      NoPatternListsEntries(rows[..n], pattern, search, w);
      KeptWithoutPattern(rows[n], pattern, search, w);
    }
  }

  lemma KeptWithoutPattern(row: seq<DbCell>, pattern: Option<string>, search: Search, w: Warehouse)
    requires |row| == 4 && !PatternActive(pattern)
    ensures RowStep(row, pattern, search, w) == Some(Keep(Entry(row, w)))
  {
  }

  /** Every listed entry's full name is its catalog, schema and table joined by dots. */
  lemma {:induction false} FullNames(rows: seq<seq<DbCell>>, pattern: Option<string>, search: Search, w: Warehouse)
    requires TablesFrom(rows, pattern, search, w).Some?
    ensures forall t :: t in TablesFrom(rows, pattern, search, w).value ==>
      t.fullName == CellText(t.catalog) + "." + CellText(t.schema) + "." + CellText(t.tableName)
  {
    if rows != [] {
      FullNames(rows[..|rows| - 1], pattern, search, w);
    }
  }

  /** A row that raises empties the whole listing. */
  lemma RowRaises(rows: seq<seq<DbCell>>, k: nat, pattern: Option<string>, search: Search, w: Warehouse)
    requires k < |rows| && RowStep(rows[k], pattern, search, w).None?
    ensures TablesFrom(rows, pattern, search, w).None?
  {
    TablesFromStep(rows, k, pattern, search, w);
    TablesFromFails(rows, k + 1, pattern, search, w);
  }

  /** In particular, a row without exactly four cells cannot be unpacked. */
  lemma UnpackFails(rows: seq<seq<DbCell>>, k: nat, pattern: Option<string>, search: Search, w: Warehouse)
    requires k < |rows| && |rows[k]| != 4
    ensures TablesFrom(rows, pattern, search, w).None?
  {
    RowRaises(rows, k, pattern, search, w);
  }

  /** The listing query restricts catalogs and schemas only when some are configured ... */
  lemma CatalogFilterShape()
    ensures InFilter("table_catalog", []) == ""
    ensures InFilter("table_catalog", ["main", "dev"]) == "AND table_catalog IN ('" + "main" + "', '" + "dev" + "')"
  {
    assert JoinWith(["main", "dev"], "', '") == "main" + "', '" + "dev" by {
      assert ["main", "dev"][..1] == ["main"];
    }
  }

  /** ... and always leaves out the information schema. */
  lemma ListQueryExcludesInformationSchema(catalogs: seq<string>, schemas: seq<string>)
    ensures Contains(ListQuery(catalogs, schemas), SchemaExclusion)
  {
    var a := ListQueryHead
      + Spaces(18) + InFilter("table_catalog", catalogs) + "\n"
      + Spaces(18) + InFilter("table_schema", schemas) + "\n"
      + Spaces(18);
    assert ListQuery(catalogs, schemas) == a + SchemaExclusion + ListQueryTail;
    ContainsSpliced(a, SchemaExclusion, ListQueryTail);
  }

  // ---- properties of loading --------------------------------------------------------------

  /** With neither a batch id nor a limit the query selects the whole table. */
  lemma PlainQuery(tableName: string, limit: Option<int>, csvFileId: Option<string>)
    requires !IdGiven(csvFileId) && !LimitGiven(limit)
    ensures TableQuery(tableName, limit, csvFileId) == "SELECT * FROM " + tableName
  {
  }

  /** A limit of 0 adds no LIMIT clause. */
  lemma ZeroLimit(tableName: string, csvFileId: Option<string>)
    ensures TableQuery(tableName, Some(0), csvFileId) == TableQuery(tableName, None, csvFileId)
  {
  }

  /** The WHERE clause comes right after the table, the LIMIT clause after it. */
  lemma WhereThenLimit(tableName: string, limit: Option<int>, csvFileId: Option<string>)
    requires IdGiven(csvFileId)
    ensures TableQuery(tableName, None, csvFileId)
            == "SELECT * FROM " + tableName + " WHERE csv_file_id = '" + csvFileId.value + "'"
    ensures LimitGiven(limit) ==>
      TableQuery(tableName, limit, csvFileId)
      == TableQuery(tableName, None, csvFileId) + " LIMIT " + IntToString(limit.value)
  {
  }

  /** The probe the batch search sends for one table. */
  lemma ProbeQuery(tableName: string, csvFileId: string)
    requires csvFileId != ""
    ensures TableQuery(tableName, Some(1), Some(csvFileId))
            == "SELECT * FROM " + tableName + " WHERE csv_file_id = '" + csvFileId + "' LIMIT 1"
  {
    assert IntToString(1) == "1";
  }

  /** A row's dictionary has exactly one key per distinct column ... */
  lemma {:induction false} RowDictKeys(columns: seq<string>, row: seq<DbCell>)
    requires |columns| <= |row|
    ensures RowDict(columns, row).Keys == set c | c in columns
  {
    if columns != [] {
      var n := |columns| - 1;
      RowDictKeys(columns[..n], row);
      assert columns == columns[..n] + [columns[n]];
    }
  }

  /** ... and each column holds the converted cell of its last occurrence. */
  lemma {:induction false} RowDictLastWins(columns: seq<string>, row: seq<DbCell>, i: nat)
    requires |columns| <= |row| && i < |columns|
    requires forall j :: i < j < |columns| ==> columns[j] != columns[i]
    ensures columns[i] in RowDict(columns, row)
    ensures RowDict(columns, row)[columns[i]] == Convert(row[i])
  {
    var n := |columns| - 1;
    if i < n {
      assert columns[..n][i] == columns[i];
      RowDictLastWins(columns[..n], row, i);
    }
  }

  /** The rows convert exactly when none is shorter than the column list, one dictionary per row. */
  lemma {:induction false} ConvertedRowsSpec(columns: seq<string>, rows: seq<seq<DbCell>>)
    ensures ConvertedRows(columns, rows).Some? <==> forall i :: 0 <= i < |rows| ==> |columns| <= |rows[i]|
    ensures ConvertedRows(columns, rows).Some? ==>
      |ConvertedRows(columns, rows).value| == |rows|
      && forall i :: 0 <= i < |rows| ==> ConvertedRows(columns, rows).value[i] == RowDict(columns, rows[i])
  {
    if rows != [] {
      var n := |rows| - 1;
      assert forall i :: 0 <= i < n ==> rows[..n][i] == rows[i];
      ConvertedRowsSpec(columns, rows[..n]);
    }
  }

  /** A failure to connect or to run the query is re-raised with its text behind a fixed prefix. */
  lemma LoadErrors(w: Warehouse, tableName: string, limit: Option<int>, csvFileId: Option<string>)
    ensures w.connectError.Some? ==>
      LoadTable(w, tableName, limit, csvFileId) == LoadError(LoadErrorPrefix + w.connectError.value)
    ensures w.connectError.None? && w.execute(TableQuery(tableName, limit, csvFileId)).Failed? ==>
      LoadTable(w, tableName, limit, csvFileId)
      == LoadError(LoadErrorPrefix + w.execute(TableQuery(tableName, limit, csvFileId)).reason)
  {
  }

  lemma TablesFromStep(rows: seq<seq<DbCell>>, k: nat, pattern: Option<string>, search: Search, w: Warehouse)
    requires k < |rows|
    ensures var init := TablesFrom(rows[..k], pattern, search, w);
      var step := RowStep(rows[k], pattern, search, w);
      TablesFrom(rows[..k + 1], pattern, search, w)
      == if init.None? || step.None? then None
         else Some(init.value + (if step.value.Keep? then [step.value.info] else []))
  {
    assert rows[..k + 1][..k] == rows[..k];
  }

  // ---- failures stop the loops ---------------------------------------------------------

  lemma {:induction false} TablesFromFails(rows: seq<seq<DbCell>>, k: nat, pattern: Option<string>, search: Search, w: Warehouse)
    requires 0 < k <= |rows| && TablesFrom(rows[..k], pattern, search, w) == None
    ensures TablesFrom(rows, pattern, search, w) == None
    decreases |rows| - k
  {
    if k < |rows| {
      assert rows[..k + 1][..k] == rows[..k];
      TablesFromFails(rows, k + 1, pattern, search, w);
    } else {
      assert rows[..k] == rows;
    }
  }

  lemma {:induction false} ConvertedRowsFails(columns: seq<string>, rows: seq<seq<DbCell>>, k: nat)
    requires 0 < k <= |rows| && ConvertedRows(columns, rows[..k]) == None
    ensures ConvertedRows(columns, rows) == None
    decreases |rows| - k
  {
    if k < |rows| {
      assert rows[..k + 1][..k] == rows[..k];
      ConvertedRowsFails(columns, rows, k + 1);
    } else {
      assert rows[..k] == rows;
    }
  }
}
