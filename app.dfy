/** The batch lookup of the `dashboard` and `export_results` routes of
    app.py: the request's batch id is checked, the warehouse tables are
    probed one by one for rows of that batch, the first table that has
    some is loaded in full, and its rows are parsed, formatted and
    summarised for the page. */
module App {
  import opened Text
  import opened Values
  import opened JsonRecords
  import opened Display
  import opened Connector

  /** The table that lists the uploads; its name marks tables the search skips. */
  const UploadTable: string := "csv_upload_details"

  predicate Metadata(t: TableInfo) {
    Contains(t.fullName, UploadTable)
  }

  /** The limit-1 probe of a table returns at least one row. */
  predicate ProbeHit(w: Warehouse, name: string, id: string) {
    var probe := LoadTable(w, name, Some(1), Some(id));
    probe.Data? && probe.rows != []
  }

  /** The loop breaks at this table: it is probed, the probe finds rows and
      the full load of the batch does not raise. */
  predicate Stops(w: Warehouse, t: TableInfo, id: string) {
    !Metadata(t) && ProbeHit(w, t.fullName, id) && LoadTable(w, t.fullName, None, Some(id)).Data?
  }

  /** The loop's `target_table` and `table_data` after the remaining tables. */
  function SearchFrom(tables: seq<TableInfo>, w: Warehouse, id: string,
                      target: Option<string>, data: Option<seq<Row>>): (Option<string>, Option<seq<Row>>)
  {
    if tables == [] then (target, data)
    else
      var name := tables[0].fullName;
      if Metadata(tables[0]) || !ProbeHit(w, name, id) then SearchFrom(tables[1..], w, id, target, data)
      else match LoadTable(w, name, None, Some(id))
        case LoadError(_) => SearchFrom(tables[1..], w, id, Some(name), data)
        case Data(rows) => (Some(name), Some(rows))
  }

  /** The names the loop passes to a limit-1 probe, in order. */
  function Probed(tables: seq<TableInfo>, w: Warehouse, id: string): seq<string> {
    if tables == [] then []
    else if Metadata(tables[0]) then Probed(tables[1..], w, id)
    else [tables[0].fullName] + (if Stops(w, tables[0], id) then [] else Probed(tables[1..], w, id))
  }

  /** Independent reference: the position of the first table the loop stops at. */
  function FirstStop(tables: seq<TableInfo>, w: Warehouse, id: string): (r: Option<nat>)
    ensures r.Some? ==> r.value < |tables| && Stops(w, tables[r.value], id)
                        && forall j :: 0 <= j < r.value ==> !Stops(w, tables[j], id)
    ensures r.None? ==> forall j :: 0 <= j < |tables| ==> !Stops(w, tables[j], id)
  {
    if tables == [] then None
    else if Stops(w, tables[0], id) then Some(0)
    else
      var rest := FirstStop(tables[1..], w, id);
      assert forall j :: 1 <= j < |tables| ==> tables[1..][j - 1] == tables[j];
      if rest.None? then None else Some(rest.value + 1)
  }

  /** One table of the search loop: the limit-1 probe and, when it finds
      rows, the full load of the batch (app.py lines 113-120). */
  method ProbeTable(conn: DatabricksConnector, name: string, id: string, w: Warehouse)
    returns (full: Option<Loaded>)
    ensures full.Some? <==> ProbeHit(w, name, id)
    ensures full.Some? ==> full.value == LoadTable(w, name, None, Some(id))
  {
    var probe := conn.LoadTableData(name, Some(1), Some(id), w);
    if probe.Data? && |probe.rows| > 0 {
      var loaded := conn.LoadTableData(name, None, Some(id), w);
      return Some(loaded);
    }
    return None;
  }

  /** The search loop of both routes (app.py lines 104-125 and 196-209). */
  method FindBatchTable(conn: DatabricksConnector, tables: seq<TableInfo>, id: string, w: Warehouse)
    returns (target: Option<string>, data: Option<seq<Row>>, ghost probed: seq<string>)
    ensures (target, data) == SearchFrom(tables, w, id, None, None)
    ensures probed == Probed(tables, w, id)
  {
    target, data, probed := None, None, [];
    var i := 0;
    while i < |tables|
      invariant 0 <= i <= |tables|
      invariant SearchFrom(tables[i..], w, id, target, data) == SearchFrom(tables, w, id, None, None)
      invariant probed + Probed(tables[i..], w, id) == Probed(tables, w, id)
    {
      var t := tables[i];
      assert tables[i..][0] == t && tables[i..][1..] == tables[i + 1..];
      if Contains(t.fullName, UploadTable) {
        i := i + 1;
        continue;
      }
      probed := probed + [t.fullName];
      var full := ProbeTable(conn, t.fullName, id, w);
      if full.Some? {
        target := Some(t.fullName);
        if full.value.Data? {
          data := Some(full.value.rows);
          return;
        }
      }
      i := i + 1;
    }
  }

  /** What the check after the loop decides. */
  datatype Lookup = NotFound | FoundTable(name: string, rows: seq<Row>)

  /** `if not target_table or not table_data` after the loop. */
  function Locate(tables: seq<TableInfo>, w: Warehouse, id: string): Lookup {
    var (target, data) := SearchFrom(tables, w, id, None, None);
    if target.None? || target.value == "" || data.None? || data.value == [] then NotFound
    else FoundTable(target.value, data.value)
  }

  // ---- the search ------------------------------------------------------------

  /** The upload table, and every table whose name mentions it, is never probed. */
  lemma {:induction false} MetadataNeverProbed(tables: seq<TableInfo>, w: Warehouse, id: string)
    ensures forall n :: n in Probed(tables, w, id) ==> !Contains(n, UploadTable)
  {
    if tables != [] {
      MetadataNeverProbed(tables[1..], w, id);
    }
  }

  /** Tables are probed in listing order, and none after the first stop. */
  lemma {:induction false} ProbesStopAtFirstStop(tables: seq<TableInfo>, w: Warehouse, id: string, k: nat)
    requires FirstStop(tables, w, id) == Some(k)
    ensures Probed(tables, w, id) == Probed(tables[..k + 1], w, id)
  {
    if k > 0 {
      var rest := tables[1..];
      assert forall j :: 0 <= j < k - 1 ==> rest[j] == tables[j + 1];
      ProbesStopAtFirstStop(rest, w, id, k - 1);
      assert tables[..k + 1][1..] == rest[..k];
      assert tables[..k + 1][0] == tables[0];
    } else {
      assert tables[..1][1..] == [];
      assert tables[..1][0] == tables[0];
    }
  }

  /** Without a stop the search leaves `table_data` as it was. */
  lemma {:induction false} NoStopKeepsData(tables: seq<TableInfo>, w: Warehouse, id: string,
                                           target: Option<string>, data: Option<seq<Row>>)
    requires forall j :: 0 <= j < |tables| ==> !Stops(w, tables[j], id)
    ensures SearchFrom(tables, w, id, target, data).1 == data
  {
    if tables != [] {
      assert forall j :: 0 <= j < |tables| - 1 ==> tables[1..][j] == tables[j + 1];
      assert !Stops(w, tables[0], id);
      NoStopKeepsData(tables[1..], w, id, Some(tables[0].fullName), data);
      NoStopKeepsData(tables[1..], w, id, target, data);
    }
  }

  /** At the first stop the search ends with that table and its full load,
      whatever earlier failed reloads left behind. */
  lemma {:induction false} StopsAtFirstStop(tables: seq<TableInfo>, w: Warehouse, id: string, k: nat,
                                           target: Option<string>, data: Option<seq<Row>>)
    requires FirstStop(tables, w, id) == Some(k)
    ensures SearchFrom(tables, w, id, target, data)
         == (Some(tables[k].fullName), Some(LoadTable(w, tables[k].fullName, None, Some(id)).rows))
  {
    if k > 0 {
      var rest := tables[1..];
      assert forall j :: 0 <= j < k - 1 ==> rest[j] == tables[j + 1];
      assert rest[k - 1] == tables[k];
      assert FirstStop(rest, w, id) == Some(k - 1);
      assert !Stops(w, tables[0], id);
      StopsAtFirstStop(rest, w, id, k - 1, Some(tables[0].fullName), data);
      StopsAtFirstStop(rest, w, id, k - 1, target, data);
    }
  }

  /** The search ends at the first table the loop stops at, whatever its
      full load holds; the batch is found there when that load has rows and
      the table has a name, and is not found otherwise. */
  lemma LocateIsFirstStop(tables: seq<TableInfo>, w: Warehouse, id: string)
    ensures FirstStop(tables, w, id).None? ==> Locate(tables, w, id) == NotFound
    ensures FirstStop(tables, w, id).Some? ==>
      var t := tables[FirstStop(tables, w, id).value];
      var rows := LoadTable(w, t.fullName, None, Some(id)).rows;
      Locate(tables, w, id) == if rows == [] || t.fullName == "" then NotFound else FoundTable(t.fullName, rows)
  {
    var r := FirstStop(tables, w, id);
    if r.None? {
      NoStopKeepsData(tables, w, id, None, None);
    } else {
      StopsAtFirstStop(tables, w, id, r.value, None, None);
    }
  }
  /** A first stop whose full load is empty hides a later table with rows:
      the loop has already broken, so the batch is not found. */
  lemma EmptyFirstStopHidesLaterRows(t0: TableInfo, t1: TableInfo, w: Warehouse, id: string)
    requires Stops(w, t0, id) && Stops(w, t1, id)
    requires LoadTable(w, t0.fullName, None, Some(id)).rows == []
    requires LoadTable(w, t1.fullName, None, Some(id)).rows != []
    ensures Locate([t0, t1], w, id) == NotFound
  {
    LocateIsFirstStop([t0, t1], w, id);
  }


  /** A probe that raises, or finds nothing, only moves the search on. */
  lemma ProbeMissSkipped(tables: seq<TableInfo>, w: Warehouse, id: string)
    requires tables != [] && !ProbeHit(w, tables[0].fullName, id)
    ensures Locate(tables, w, id) == Locate(tables[1..], w, id)
  {
  }

  // ---- the dashboard page ----------------------------------------------------------

  const MissingIdPage: string := "Missing csv_file_id parameter. Please select a file from the upload list."
  const NotConfiguredPage: string := "Databricks connection not configured."
  const NoParsedDataPage: string := "No valid provider data found after parsing."

  function NoTablePage(id: string): string {
    "No table found containing data for csv_file_id: " + id + ". Please ensure the batch has been processed and data exists in a table."
  }

  /** The counts shown above the results. */
  datatype DashboardSummary = DashboardSummary(total: nat, verified: nat, review: nat, failed: nat)

  /** A rendered dashboard, an error page with its HTTP status, or a page
      whose city values cannot all be compared as text. */
  datatype Page =
    | Dashboard(results: seq<Record>, summary: DashboardSummary, cities: seq<string>)
    | ErrorPage(status: nat, error: string)
    | CitiesNotText

  /** The rows of the loaded table as `parse_json_data` receives them. */
  function AsJson(rows: seq<Row>): JsonData {
    Many(seq(|rows|, i requires 0 <= i < |rows| => Object(rows[i])))
  }

  /** `bool(r.get('city'))` on an entry. */
  predicate FieldTruthy(f: Field) {
    match f
    case Cell(v) => Truthy(v)
    case Items(xs) => xs != []
  }

  /** The non-empty city texts, in order; None once a non-empty city is not text. */
  function CityTexts(results: seq<Record>): Option<seq<string>> {
    if results == [] then Some([])
    else
      var init := CityTexts(results[..|results| - 1]);
      var city := GetField(results[|results| - 1], City, Cell(Str("")));
      if init.None? then None
      else if !FieldTruthy(city) then init
      else if city.Cell? && city.v.Str? then Some(init.value + [city.v.s])
      else None
  }

  function SummaryOf(results: seq<Record>): DashboardSummary {
    DashboardSummary(|results|, CountStatus(results, "verified"), CountStatus(results, "needs_review"),
                     CountStatus(results, "failed"))
  }

  /** The page for the rows of the table found: parsed, formatted, counted
      and with the sorted distinct cities. */
  function PageFor(rows: seq<Row>): Page {
    var parsed := ParsedRecords(Outcomes(Elements(AsJson(rows))));
    if parsed == [] then ErrorPage(404, NoParsedDataPage)
    else
      var formatted := MapRecords(FormatRecord, parsed);
      var cities := CityTexts(formatted);
      if cities.None? then CitiesNotText
      else Dashboard(formatted, SummaryOf(formatted), SortedDistinct(cities.value))
  }

  /** The page for a batch id once the table list is known. */
  function DashboardFor(tables: seq<TableInfo>, w: Warehouse, id: string): Page {
    match Locate(tables, w, id)
    case NotFound => ErrorPage(404, NoTablePage(id))
    case FoundTable(_, rows) => PageFor(rows)
  }

  /** Lines 136-154 of the dashboard, on the rows of the table found. */
  method RenderDashboard(rows: seq<Row>) returns (page: Page)
    ensures page == PageFor(rows)
  {
    var parsed, errors := ParseJsonData(AsJson(rows));
    if parsed == [] {
      return ErrorPage(404, NoParsedDataPage);
    }
    var formatted := FormatResults(parsed);
    var summary := DashboardSummary(|formatted|, CountStatus(formatted, "verified"),
                                    CountStatus(formatted, "needs_review"), CountStatus(formatted, "failed"));
    var cities := CityTexts(formatted);
    if cities.None? {
      return CitiesNotText;
    }
    page := Dashboard(formatted, summary, SortedDistinct(cities.value));
  }

  /** The table list `list_available_tables()` hands back without a forced refresh. */
  function ListingSeen(cacheValid: bool, cache: Option<seq<TableInfo>>, listed: Option<seq<TableInfo>>): seq<TableInfo>
    requires cacheValid ==> cache.Some?
  {
    if cacheValid then cache.value else if listed.Some? then listed.value else []
  }

  /** `dashboard`: the batch id is required before anything is listed or probed. */
  method DashboardRoute(csvFileId: Option<string>, conn: DatabricksConnector?, now: int, stamp: int,
                        w: Warehouse, search: Search)
    returns (page: Page, ghost tables: seq<TableInfo>)
    modifies conn
    ensures !IdGiven(csvFileId) ==> page == ErrorPage(400, MissingIdPage) && (conn != null ==> unchanged(conn))
    ensures IdGiven(csvFileId) && conn == null ==> page == ErrorPage(500, NotConfiguredPage)
    ensures IdGiven(csvFileId) && conn != null ==>
      tables == ListingSeen(old(conn.IsCacheValid(now)), old(conn.tableCache),
                            ListTables(w, conn.catalogs, conn.schemas, conn.tablePattern, search))
      && page == DashboardFor(tables, w, csvFileId.value)
    ensures IdGiven(csvFileId) && conn != null ==>
      var listed := ListTables(w, conn.catalogs, conn.schemas, conn.tablePattern, search);
      if old(conn.IsCacheValid(now)) || listed.None? then unchanged(conn)
      else conn.tableCache == Some(tables) && conn.cacheTimestamp == Some(stamp)
  {
    tables := [];
    if !IdGiven(csvFileId) {
      return ErrorPage(400, MissingIdPage), tables;
    }
    if conn == null {
      return ErrorPage(500, NotConfiguredPage), tables;
    }
    var id := csvFileId.value;
    ghost var valid, cache := conn.IsCacheValid(now), conn.tableCache;
    ghost var listed := ListTables(w, conn.catalogs, conn.schemas, conn.tablePattern, search);
    var allTables := conn.ListAvailableTables(false, now, stamp, w, search);
    tables := allTables;
    assert tables == ListingSeen(valid, cache, listed);
    page := DashboardForTables(conn, allTables, id, w);
  }

  /** Lines 98-154 of the dashboard, once the table list is known. */
  method DashboardForTables(conn: DatabricksConnector, tables: seq<TableInfo>, id: string, w: Warehouse)
    returns (page: Page)
    ensures page == DashboardFor(tables, w, id)
  {
    var target, data, probed := FindBatchTable(conn, tables, id, w);
    if target.None? || target.value == "" || data.None? || data.value == [] {
      assert Locate(tables, w, id) == NotFound;
      return ErrorPage(404, NoTablePage(id));
    }
    assert Locate(tables, w, id) == FoundTable(target.value, data.value);
    page := RenderDashboard(data.value);
  }

  // ---- the export -------------------------------------------------------------------

  /** What `export_results` produces before the spreadsheet is written:
      the formatted records, or a JSON error with its HTTP status. */
  datatype Export = Exported(results: seq<Record>) | ExportError(status: nat, error: string)

  const MissingIdError: string := "Missing csv_file_id parameter"
  const NotConfiguredError: string := "Databricks connection not configured"

  function NoTableError(id: string): string {
    "No table found containing data for csv_file_id " + id
  }

  /** The records exported for the rows of the table found. */
  function ExportedRecords(rows: seq<Row>): seq<Record> {
    MapRecords(FormatRecord, ParsedRecords(Outcomes(Elements(AsJson(rows)))))
  }

  function ExportFor(tables: seq<TableInfo>, w: Warehouse, id: string): Export {
    match Locate(tables, w, id)
    case NotFound => ExportError(404, NoTableError(id))
    case FoundTable(_, rows) => Exported(ExportedRecords(rows))
  }

  /** Lines 217-218 of the export: parse, then format. */
  method RenderExport(rows: seq<Row>) returns (records: seq<Record>)
    ensures records == ExportedRecords(rows)
  {
    var parsed, _ := ParseJsonData(AsJson(rows));
    records := FormatResults(parsed);
  }

  /** `export_results`, up to the records it writes out. */
  method ExportRoute(csvFileId: Option<string>, conn: DatabricksConnector?, now: int, stamp: int,
                     w: Warehouse, search: Search)
    returns (outcome: Export, ghost tables: seq<TableInfo>)
    modifies conn
    ensures !IdGiven(csvFileId) ==> outcome == ExportError(400, MissingIdError) && (conn != null ==> unchanged(conn))
    ensures IdGiven(csvFileId) && conn == null ==> outcome == ExportError(500, NotConfiguredError)
    ensures IdGiven(csvFileId) && conn != null ==>
      tables == ListingSeen(old(conn.IsCacheValid(now)), old(conn.tableCache),
                            ListTables(w, conn.catalogs, conn.schemas, conn.tablePattern, search))
      && outcome == ExportFor(tables, w, csvFileId.value)
    ensures IdGiven(csvFileId) && conn != null ==>
      var listed := ListTables(w, conn.catalogs, conn.schemas, conn.tablePattern, search);
      if old(conn.IsCacheValid(now)) || listed.None? then unchanged(conn)
      else conn.tableCache == Some(tables) && conn.cacheTimestamp == Some(stamp)
  {
    tables := [];
    if !IdGiven(csvFileId) {
      return ExportError(400, MissingIdError), tables;
    }
    if conn == null {
      return ExportError(500, NotConfiguredError), tables;
    }
    var id := csvFileId.value;
    var allTables := conn.ListAvailableTables(false, now, stamp, w, search);
    tables := allTables;
    outcome := ExportForTables(conn, allTables, id, w);
  }

  /** Lines 191-218 of the export, once the table list is known. */
  method ExportForTables(conn: DatabricksConnector, tables: seq<TableInfo>, id: string, w: Warehouse)
    returns (outcome: Export)
    ensures outcome == ExportFor(tables, w, id)
  {
    var target, data, probed := FindBatchTable(conn, tables, id, w);
    if target.None? || target.value == "" || data.None? || data.value == [] {
      return ExportError(404, NoTableError(id));
    }
    var records := RenderExport(data.value);
    outcome := Exported(records);
  }

  // ---- properties of the page ---------------------------------------------------------

  /** Every loaded row parses, so a found table never leads to the
      "no valid provider data" page: there is one display record per row. */
  lemma FoundTableParses(rows: seq<Row>)
    ensures |ParsedRecords(Outcomes(Elements(AsJson(rows))))| == |rows|
    ensures forall i :: 0 <= i < |rows| ==> ParsedRecords(Outcomes(Elements(AsJson(rows))))[i] == JsonRecord(rows[i])
  {
    var items := Elements(AsJson(rows));
    assert forall i :: 0 <= i < |items| ==> items[i] == Object(rows[i]);
    ObjectsParseInOrder(items);
  }

  lemma NoParsedDataUnreachable(tables: seq<TableInfo>, w: Warehouse, id: string)
    requires Locate(tables, w, id).FoundTable?
    ensures !DashboardFor(tables, w, id).ErrorPage?
  {
    FoundTableParses(Locate(tables, w, id).rows);
  }

  /** The summary counts: the total is the number of records and the three
      statuses together are at most that. */
  lemma SummaryBounded(results: seq<Record>)
    ensures SummaryOf(results).total == |results|
    ensures SummaryOf(results).verified + SummaryOf(results).review + SummaryOf(results).failed
            <= SummaryOf(results).total
  {
    CountsBounded(results);
  }

  /** Each record of a found table's page is the parsed row without its address. */
  lemma PageRecords(tables: seq<TableInfo>, w: Warehouse, id: string)
    requires Locate(tables, w, id).FoundTable?
    requires DashboardFor(tables, w, id).Dashboard?
    ensures var rows := Locate(tables, w, id).rows;
      var page := DashboardFor(tables, w, id);
      |page.results| == |rows| && page.summary.total == |rows|
      && forall i :: 0 <= i < |rows| ==> page.results[i] == JsonRecord(rows[i]) - {Address}
  {
    RowsPage(Locate(tables, w, id).rows);
  }

  /** The same on the rows of the table: the page lists them formatted, in order. */
  lemma RowsPage(rows: seq<Row>)
    requires PageFor(rows).Dashboard?
    ensures |PageFor(rows).results| == |rows| && PageFor(rows).summary.total == |rows|
    ensures forall i :: 0 <= i < |rows| ==> PageFor(rows).results[i] == JsonRecord(rows[i]) - {Address}
  {
    var parsed := ParsedRecords(Outcomes(Elements(AsJson(rows))));
    FoundTableParses(rows);
    MapRecordsElements(FormatRecord, parsed);
    forall i | 0 <= i < |rows|
      ensures MapRecords(FormatRecord, parsed)[i] == JsonRecord(rows[i]) - {Address}
    {
      FormatJsonRecord(rows[i]);
    }
  }

  /** The city texts are exactly the non-empty text cities of the records ... */
  lemma {:induction false} CityTextsMembers(results: seq<Record>)
    requires CityTexts(results).Some?
    ensures forall c :: c in CityTexts(results).value <==>
      exists i :: 0 <= i < |results| && GetField(results[i], City, Cell(Str(""))) == Cell(Str(c)) && c != ""
  {
    if results != [] {
      var n := |results| - 1;
      var init := results[..n];
      CityTextsMembers(init);
      forall c | c in CityTexts(results).value
        ensures exists i :: 0 <= i < |results| && GetField(results[i], City, Cell(Str(""))) == Cell(Str(c)) && c != ""
      {
        if c in CityTexts(init).value {
          var i :| 0 <= i < |init| && GetField(init[i], City, Cell(Str(""))) == Cell(Str(c)) && c != "";
          assert results[i] == init[i];
        }
      }
      forall c | exists i :: 0 <= i < |results| && GetField(results[i], City, Cell(Str(""))) == Cell(Str(c)) && c != ""
        ensures c in CityTexts(results).value
      {
        var i :| 0 <= i < |results| && GetField(results[i], City, Cell(Str(""))) == Cell(Str(c)) && c != "";
        if i < n {
          assert init[i] == results[i];
        }
      }
    }
  }

  /** ... so the page's cities are sorted, hold no duplicates and are exactly those cities. */
  lemma PageCities(tables: seq<TableInfo>, w: Warehouse, id: string)
    requires DashboardFor(tables, w, id).Dashboard?
    ensures var page := DashboardFor(tables, w, id);
      StrictlySorted(page.cities)
      && (forall i, j :: 0 <= i < j < |page.cities| ==> page.cities[i] != page.cities[j])
      && forall c :: c in page.cities <==>
           exists i :: 0 <= i < |page.results| && GetField(page.results[i], City, Cell(Str(""))) == Cell(Str(c)) && c != ""
  {
    var page := DashboardFor(tables, w, id);
    CityTextsMembers(page.results);
    StrictlySortedDistinct(page.cities);
  }
}
