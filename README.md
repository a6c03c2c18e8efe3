# Provider verification pilot: the batch lookup and record pipeline

This project models the core of the provider verification dashboard and proves properties of that model.

First the request's batch id (`csv_file_id`) is checked. Then the warehouse's table list is fetched. It comes from a cache with a time-to-live, which is refreshed by a catalog query with an optional table-name pattern filter. The tables are probed one by one until one holds rows of the batch, and that table is loaded in full. Its rows are parsed into dashboard records (`parse_json_data`), given the display shape (`format_results_for_display`) and summarised (per-status counts and sorted distinct cities). The export route runs the same lookup and produces the same formatted records.

Alongside that path, the model covers:
- `parse_uploaded_data` for uploaded tables: column synonyms, a tolerant confidence parser, status synonyms and comma-separated lists;
- `calculate_summary_stats`;
- the upload filename check `validate_file`.

Modules, in dependency order:

- `Text`: the parts of Python's `str` the pipeline uses. These are `lower`, `strip`, `split`, `join`, `in` on strings, `str(n)`, and `<` with `sorted(set(...))`.
- `Values`: scalar values, truthiness, `==` and hashing by value, and `str()`. It also has `list(dict.fromkeys(...))` de-duplication and the per-element outcome of a parse.
- `Decimal`: `float(s)` on decimal text, computed exactly.
- `JsonRecords`: `parse_json_data`.
- `UploadedRows`: `parse_uploaded_data`, with a table given as column labels and rows of optional cell texts.
- `Display`: `format_results_for_display` and `calculate_summary_stats`.
- `Connector`: the `DatabricksConnector` class. Its two cache fields are updated in place by `ListAvailableTables`. The module also holds the listing query and its pattern filter, and the query text and row conversion of `load_table_data`.
- `FileHandler`: `validate_file`.
- `App`: the table search of `dashboard` and `export_results`, the page and the export built from the table found, and the guards before the search.

Each loop of the source is a method with a `while` loop. It is proved equal to a function on its inputs, and the properties the source promises are lemmas about those functions.

Three things are parameters:
- The SQL warehouse is a value `Warehouse`. It says whether connecting raises, and it gives the result of each statement text as a function.
- The regular-expression search is a function returning a match or a failure.
- The clock is two integer readings in microseconds: one when the cache is checked, one when a fresh listing is stored.

The model follows the code as written, including where it departs from the behaviour the system is meant to have:
- Queries are built by concatenating the batch id and the catalog and schema names into the SQL text. No parameter binding is done.
- An unrecognised status in an uploaded table is inferred from the score thresholds, not mapped to `needs_review`. In a warehouse row, a status other than `SUCCESS` gives `failed`.
- A confidence above 100 scores 0, and a negative number gives a negative score. Nothing is clamped to [0, 100].
- The provider name is not title-cased and the phone is not reformatted. The operating hours are one raw value, not a day-to-range map.
- An uploaded table needs a provider or an NPI column, not both. A row is never excluded for an empty value.
- The search reports not-found without a count of the tables searched, and it has no cancellation.
- A table whose probe finds rows but whose full load is empty gives not-found (404).
- The empty summary has no `verification_rate` key.

## Model

| member | source | states |
|---|---|---|
| Text.Lower | utils/data_formatter.py:180 | `lower()` keeps the length and lower-cases, in place, the capitals of ASCII and Latin-1 and the Kelvin sign, leaving every other character as it is |
| Text.TrimLeft | utils/data_formatter.py:213 | the result is a suffix of the input that does not start with whitespace, and only whitespace was cut |
| Text.TrimRight | utils/data_formatter.py:213 | the result is a prefix of the input that does not end with whitespace, and only whitespace was cut |
| Text.StripShape | utils/data_formatter.py:213 | `strip()` leaves an infix with no whitespace at either end, and everything cut on either side is whitespace |
| Text.StripChars | utils/data_formatter.py:213 | stripping only removes characters |
| Text.StripIdempotent | utils/data_formatter.py:265 | stripping twice is stripping once |
| Text.Split | utils/data_formatter.py:265 | `split(sep)` gives at least one piece, and no piece holds the separator |
| Text.JoinSplit | utils/data_formatter.py:265 | joining the pieces of a split with the separator gives the text back |
| Text.SplitJoin | utils/data_formatter.py:265 | pieces without the separator are what splitting their join yields |
| Text.SplitNoSeparator | utils/data_formatter.py:265 | text without the separator splits into itself alone |
| Text.ContainsIff | app.py:108 | `p in s` holds exactly when `p` occurs in `s` at some position |
| Text.ContainsSpliced | utils/databricks_connector.py:113-125 | text spliced between two strings is found in the result |
| Text.NatToString | utils/data_formatter.py:134 | `str(n)` is a non-empty string of decimal digits |
| Text.NatToStringRoundTrip | utils/data_formatter.py:134 | the digits of `str(n)` read back as `n` |
| Text.LexLessIrreflexive | app.py:154 | string `<` is irreflexive |
| Text.LexLessTransitive | app.py:154 | string `<` is transitive |
| Text.LexLessTotal | app.py:154 | of two different strings one is less than the other |
| Text.LexLessAsymmetric | app.py:154 | string `<` is asymmetric |
| Text.InsertSorted | app.py:154 | inserting into a strictly sorted list keeps it strictly sorted and adds exactly the new value |
| Text.SortedDistinct | app.py:154 | `sorted(set(xs))` is strictly sorted and holds exactly the values of `xs` |
| Text.StrictlySortedDistinct | app.py:154 | a strictly sorted list holds no value twice |
| Values.Or | utils/data_formatter.py:33 | `a or b` is `a` when `a` is truthy, else `b` |
| Values.Get | utils/data_formatter.py:32 | `d.get(k, default)` is the entry when the key is present, else the default |
| Values.GetField | utils/data_formatter.py:316-334 | `r.get(k, default)` on a record: the entry when the key is present, else the default |
| Values.PyEqStr | utils/data_formatter.py:48-59 | a value equals a string literal in Python's sense exactly when it is that string |
| Values.Trunc | utils/data_formatter.py:236 | `int(x)` truncates toward zero: within 1 of `x`, on the side of zero |
| Values.DedupFrom | utils/data_formatter.py:80 | the scan keeps only input values not seen before, no two equal, and loses no key |
| Values.DedupIsFirstOccurrences | utils/data_formatter.py:80 | `list(dict.fromkeys(s))` equals an independent definition: the first occurrence of each value, in order |
| Values.DedupSpec | utils/data_formatter.py:80 | de-duplication leaves no duplicates, loses no value, adds none and keeps the first element first |
| Values.DedupDistinct | utils/data_formatter.py:80 | a list without duplicates is left as it is |
| Values.DedupIdempotent | utils/data_formatter.py:80 | de-duplicating twice is de-duplicating once |
| Values.OneOutcomeEach | utils/data_formatter.py:29-135 | every element yields exactly one record or one error message |
| Values.AllParsed | utils/data_formatter.py:29-131 | when every element parses, the records are the elements' records in order and there are no messages |
| Values.AllRejected | utils/data_formatter.py:133-135 | when every element fails, there are no records and the messages are the elements' messages in order |
| Decimal.DigitRun | utils/data_formatter.py:233 | the digit run starting at a position is maximal and all digits |
| Decimal.ParseNatural | utils/data_formatter.py:233 | `float(str(n))` is `n` |
| Decimal.DigitsParse | utils/data_formatter.py:233 | a run of digits reads as its value |
| Decimal.NoDigitsNoNumber | utils/data_formatter.py:233 | text without a digit is not a number |
| Decimal.DecimalParse | utils/data_formatter.py:233 | digits, a point and digits read as the whole part plus the digits after the point over ten to their number |
| Decimal.PointMantissa | utils/data_formatter.py:233 | text of digits, a point and digits reads as its digits without the point, scaled down by ten to the number of fraction digits |
| Decimal.FractionValue | utils/data_formatter.py:233 | that scaled mantissa is the whole part plus the fraction |
| Decimal.ExampleFraction | utils/data_formatter.py:233 | "0.85" reads as 0.85 |
| Decimal.ExampleLeadingDot | utils/data_formatter.py:233 | ".5" reads as 0.5 |
| Decimal.ExampleTrailingDot | utils/data_formatter.py:233 | "1." reads as 1 |
| Decimal.ExampleExponent | utils/data_formatter.py:233 | "-2.5e1" reads as -25 |
| Decimal.ExampleLoneDot | utils/data_formatter.py:233 | "." is not a number |
| Decimal.ExampleBareExponent | utils/data_formatter.py:233 | "1e" is not a number |
| Decimal.ExampleInnerSpace | utils/data_formatter.py:233 | "85 %" is not a number |
| JsonRecords.Elements | utils/data_formatter.py:26-27 | a dictionary becomes a one-element list; a list is walked as it is |
| JsonRecords.Outcomes | utils/data_formatter.py:29-135 | one outcome per element, in input order, each that element's outcome at its position |
| JsonRecords.CollectSources | utils/data_formatter.py:70-80 | the sources loop, the insertion of `addr_source` and `dict.fromkeys` give the record's sources |
| JsonRecords.FindOperatingHours | utils/data_formatter.py:86-93 | the hours loop stops at the first value that looks like hours, else '' |
| JsonRecords.MapRecord | utils/data_formatter.py:32-129 | the loop body builds the record of the object, key by key |
| JsonRecords.ParseElement | utils/data_formatter.py:30-135 | an object is parsed into its record; any other element is caught as the error for its position |
| JsonRecords.ParseJsonData | utils/data_formatter.py:11-137 | `parse_json_data` returns the parsed records and the error messages of the outcomes, each in input order |
| JsonRecords.ObjectsParseInOrder | utils/data_formatter.py:29-131 | a list of objects parses without errors into one record per object, in order |
| JsonRecords.SingleObject | utils/data_formatter.py:26-27 | a dictionary parses into exactly its record, with no errors |
| JsonRecords.NonObjectReported | utils/data_formatter.py:133-134 | a non-object is reported with its 1-based position and the missing `get` attribute |
| JsonRecords.ScoreTable | utils/data_formatter.py:47-55 | High 90, Medium 70, Low 40, anything else 50; a missing measure counts as Medium |
| JsonRecords.StatusTable | utils/data_formatter.py:58-67 | the status is one of the three values; it is verified exactly for SUCCESS with High, and failed exactly for a non-SUCCESS status or Low |
| JsonRecords.SourcesShape | utils/data_formatter.py:70-80 | no duplicates; a usable `addr_source` comes first; every other source is a truthy enumerated value that is neither 'NA' nor 'null' |
| JsonRecords.SourcesComplete | utils/data_formatter.py:71-74 | every kept enumerated source appears in the sources, up to Python equality |
| JsonRecords.EnumeratedSourcesFrom | utils/data_formatter.py:71-74 | every enumerated source kept is a usable value of one of the `source_i` keys from that index on |
| JsonRecords.EnumeratedContains | utils/data_formatter.py:71-74 | every usable `source_k` value is among the enumerated sources |
| JsonRecords.HoursFirstMatch | utils/data_formatter.py:87-93 | the hours are the first enumerated value that looks like hours |
| JsonRecords.HoursNoMatch | utils/data_formatter.py:86-93 | with no such value the hours are '' |
| JsonRecords.NonTextIsNotHours | utils/data_formatter.py:91 | a number, boolean or None never looks like hours |
| UploadedRows.NormalizeColumns | utils/data_formatter.py:179-180 | each column label is stripped and lower-cased, in place |
| UploadedRows.FirstMatchFrom | utils/data_formatter.py:185-188 | the inner loop finds the first column that is one of the variants, or none |
| UploadedRows.Assign | utils/data_formatter.py:187 | `m[k] = v` keeps keys unique, holds the new entry and keeps every entry of another key |
| UploadedRows.MatchColumns | utils/data_formatter.py:183-188 | the column map has unique keys, each a column of the table |
| UploadedRows.BuildColumnMap | utils/data_formatter.py:183-188 | the nested loops build the column map of the standard names in their listed order |
| UploadedRows.ProviderNamesUnique | utils/data_formatter.py:161-175 | no provider synonym is a synonym of another field |
| UploadedRows.NpiNamesUnique | utils/data_formatter.py:162-175 | no NPI synonym is a synonym of a field listed after it |
| UploadedRows.MatchColumnsOrigin | utils/data_formatter.py:183-188 | every map entry pairs a column with a standard name whose first matching column it is |
| UploadedRows.MatchColumnsKeeps | utils/data_formatter.py:183-188 | a standard name keeps its first matching column unless a later field claims that column |
| UploadedRows.EssentialSound | utils/data_formatter.py:191-194 | an entry for the provider or NPI comes from a column with one of their synonyms |
| UploadedRows.EssentialComplete | utils/data_formatter.py:191-194 | a column with a provider or NPI synonym gives the provider or NPI an entry |
| UploadedRows.EssentialMatch | utils/data_formatter.py:183-194 | the essential check passes exactly when some column is a provider or NPI synonym |
| UploadedRows.MappedOrderEssentialFirst | utils/data_formatter.py:160-162 | the fields are listed with the provider first and the NPI second, neither repeated |
| UploadedRows.NormalizedEssential | utils/data_formatter.py:179-180 | some normalised column is an essential synonym exactly when some column, stripped and lower-cased, is |
| UploadedRows.EssentialColumns | utils/data_formatter.py:179-194 | the essential check passes exactly when some column, stripped and lower-cased, names the provider or the NPI |
| UploadedRows.IndexOf | utils/data_formatter.py:207 | the column looked up is at the position found |
| UploadedRows.MappedFields | utils/data_formatter.py:206-215 | after the mapping loop the record has exactly the mapped standard names as keys |
| UploadedRows.SetDefault | utils/data_formatter.py:218-226 | `setdefault` adds the key when absent and changes no present entry |
| UploadedRows.RemoveChar | utils/data_formatter.py:232 | `replace('%', '')` leaves no '%', and text without one unchanged |
| UploadedRows.StatusWordsIn | utils/data_formatter.py:246-250 | the word-list tests are membership in the verified, review and failed lists |
| UploadedRows.DefaultStepsClosed | utils/data_formatter.py:218-226 | the nine `setdefault` calls made one by one give the record the defaults describe |
| UploadedRows.ConversionStepsClosed | utils/data_formatter.py:229-288 | the conversions made one by one, each reading the record as left by the previous ones, give the converted record |
| UploadedRows.RowOutcomes | utils/data_formatter.py:201-294 | one outcome per row, in order, each that row's outcome at its position |
| UploadedRows.ParseRow | utils/data_formatter.py:202-294 | the loop body maps the row's columns, then gives its record, or the error for a duplicated column |
| UploadedRows.ParseRows | utils/data_formatter.py:199-296 | the row loop returns the parsed records and the messages of the outcomes, in order |
| UploadedRows.ParseUploadedData | utils/data_formatter.py:140-296 | `parse_uploaded_data` returns the essential-check failure or the records and messages of the rows |
| UploadedRows.MissingEssentialColumn | utils/data_formatter.py:191-196 | without a provider or NPI column the result is no records and the one missing-column message |
| UploadedRows.OneResultPerRow | utils/data_formatter.py:199-294 | otherwise every row yields exactly one record or one message |
| UploadedRows.AmbiguousRowRejected | utils/data_formatter.py:207-210 | a row under a map with a duplicated recognised column fails with pandas' ambiguity message |
| UploadedRows.AmbiguousRejectsAll | utils/data_formatter.py:293-294 | under such a map every row is rejected, with messages in row order |
| UploadedRows.DuplicateColumnRejectsRows | utils/data_formatter.py:179-294 | a recognised column name that occurs twice after normalisation rejects every row |
| UploadedRows.StandardNamesKnown | utils/data_formatter.py:160-176 | every map entry carries one of the fifteen standard names |
| UploadedRows.EssentialFieldMapped | utils/data_formatter.py:191-215 | once the check has passed, the mapped fields hold the provider or the NPI |
| UploadedRows.WithDefaultsKeys | utils/data_formatter.py:218-226 | the defaults add the nine identity keys |
| UploadedRows.WithDefaultsKeeps | utils/data_formatter.py:218-226 | the defaults change no entry already present |
| UploadedRows.WithDefaultsProvider | utils/data_formatter.py:218 | a missing provider falls back to the NPI, then to "Provider n" |
| UploadedRows.WithDefaultsEmpty | utils/data_formatter.py:219-226 | every other missing identity field becomes '' |
| UploadedRows.ConvertedEntries | utils/data_formatter.py:229-288 | the eight converted entries hold the score, status, lists, addresses, change flag and row number, and nothing else changes |
| UploadedRows.ConvertedKeys | utils/data_formatter.py:229-288 | the conversions add eight keys and keep every other entry |
| UploadedRows.ConvertedScoreStatus | utils/data_formatter.py:229-260 | the score comes from the confidence text, the status from the status text and that score |
| UploadedRows.ConvertedLists | utils/data_formatter.py:263-285 | sources and discrepancies are the comma lists of their texts |
| UploadedRows.ConvertedAddresses | utils/data_formatter.py:270-278 | both addresses fall back to the address, and the change flag compares them |
| UploadedRows.ConvertedRowNumber | utils/data_formatter.py:288 | the row number is 1-based |
| UploadedRows.RecordKeys | utils/data_formatter.py:204-291 | a record built from standard fields has exactly the seventeen uploaded keys |
| UploadedRows.RecordProvider | utils/data_formatter.py:218 | its provider is the mapped provider, or else the mapped NPI |
| UploadedRows.RowShape | utils/data_formatter.py:201-291 | under a recognised map with no duplicated column, a row parses into such a record |
| UploadedRows.ParsedRowShape | utils/data_formatter.py:183-291 | past the essential check and without duplicated columns, every row parses into a record with those keys, never the "Provider n" placeholder |
| UploadedRows.ConfidenceValueRange | utils/data_formatter.py:234-240 | at most 100; (1, 100] truncates x; up to 1 truncates 100x; above 100 gives 0; non-negative never below 0; -0.01 or less below 0 |
| UploadedRows.ConfidenceFromTextRange | utils/data_formatter.py:229-242 | at most 100; empty or unparseable text scores 0 |
| UploadedRows.WholePercent | utils/data_formatter.py:233-236 | a whole number from 2 to 100 scores itself |
| UploadedRows.PercentSignRemoved | utils/data_formatter.py:232 | removing the '%' after a number leaves the number |
| UploadedRows.PercentSignIgnored | utils/data_formatter.py:231-232 | a trailing '%' does not change the score |
| UploadedRows.NumberPercentSign | utils/data_formatter.py:231-232 | "n%" scores as "n" |
| UploadedRows.WholePercentSign | utils/data_formatter.py:231-236 | "n%" for n from 2 to 100 scores n |
| UploadedRows.ConfidenceOne | utils/data_formatter.py:237-238 | "1" is read as a fraction, scoring 100 |
| UploadedRows.ConfidenceAboveHundred | utils/data_formatter.py:239-240 | a whole number above 100 scores 0 |
| UploadedRows.ConfidenceFromNumber | utils/data_formatter.py:232-240 | text that reads as x scores the value of x |
| UploadedRows.WholeNumberText | utils/data_formatter.py:233-240 | the text of a whole number scores the value of that number |
| UploadedRows.StatusValues | utils/data_formatter.py:245-260 | the status is always one of the three values |
| UploadedRows.StatusFromWord | utils/data_formatter.py:245-251 | a lower-cased synonym decides the status, the verified list first, then review, then failed |
| UploadedRows.StatusFromScore | utils/data_formatter.py:252-260 | otherwise 80 and above is verified, 50 and above needs review, below that failed |
| UploadedRows.StatusIgnoresCase | utils/data_formatter.py:245 | "Approved" is verified |
| UploadedRows.StatusKelvinSign | utils/data_formatter.py:245-248 | "chec" followed by the Kelvin sign lower-cases to "check" and is a review word |
| UploadedRows.NonBlankSpec | utils/data_formatter.py:265 | the kept pieces are non-empty, stripped and comma-free, and no non-blank piece is lost |
| UploadedRows.CommaListSpec | utils/data_formatter.py:263-267 | the list holds the non-blank pieces of the text, each stripped, and loses none |
| UploadedRows.CommaListSingle | utils/data_formatter.py:263-267 | text without a comma gives its stripped self, or nothing when blank |
| UploadedRows.AddressDiffersIff | utils/data_formatter.py:274-278 | the address changed exactly when the verified one is non-empty and differs other than in letter case |
| UploadedRows.AccentedCaseUnchanged | utils/data_formatter.py:274-278 | "CAFÉ ST" against "Café St" differs only in letter case, so the address is unchanged |
| Display.FormatResults | utils/data_formatter.py:299-339 | the loop gives the display record of every result, in order |
| Display.MapRecordsElements | utils/data_formatter.py:314-337 | one display record per result, the i-th formatted from the i-th result |
| Display.FormatEmpty | utils/data_formatter.py:316-334 | an empty result shows provider "Unknown", NPI "N/A", score 0, status "pending", empty lists and no address change |
| Display.FormatVerifiedAddress | utils/data_formatter.py:319 | the verified address falls back to the address, then to '' |
| Display.FormatDrops | utils/data_formatter.py:315-335 | the address and the row number are not display keys |
| Display.FormatComplete | utils/data_formatter.py:315-335 | a result holding every display key is only cut down to those keys |
| Display.FormatIdempotent | utils/data_formatter.py:315-335 | formatting twice is formatting once |
| Display.FormatWithAddress | utils/data_formatter.py:315-335 | a record with the display keys and the address loses just the address |
| Display.FormatJsonRecord | utils/data_formatter.py:108-129 | a record parsed from a warehouse row keeps every entry but the address |
| Display.JsonRecordKeys | utils/data_formatter.py:108-129 | a parsed warehouse record has the nineteen display keys and the address |
| Display.CountStatus | utils/data_formatter.py:364-366 | a per-status count is at most the number of records |
| Display.CalculateSummaryStats | utils/data_formatter.py:342-382 | `calculate_summary_stats` gives the summary of the records, or the TypeError the sums raise |
| Display.GatherSources | utils/data_formatter.py:370-372 | the `set.update` loop gives the union of the records' sources, or fails when one is not iterable |
| Display.EmptySummary | utils/data_formatter.py:354-362 | an empty list gives the all-zero summary, with no division |
| Display.CountsBounded | utils/data_formatter.py:364-366 | the three counts add up to at most the number of records |
| Display.SummaryCountsBounded | utils/data_formatter.py:352-378 | the summary's total is the record count, and its three counts add up to at most that |
| Display.SourceUnionMembers | utils/data_formatter.py:370-372 | the union holds exactly the sources of some record, by Python equality |
| Display.SourcesConsulted | utils/data_formatter.py:370-380 | `sources_consulted` is the size of the union of all source lists |
| Display.ConfidenceSumDefined | utils/data_formatter.py:368 | the score sum is defined exactly when every score is a number |
| Display.SourceUnionDefined | utils/data_formatter.py:370-372 | the union is defined exactly when every record's sources are iterable |
| Display.SourceUnionFails | utils/data_formatter.py:370-372 | once a record's sources fail to iterate, the whole union fails |
| Display.SummaryFails | utils/data_formatter.py:368-372 | the summary raises exactly on a non-numeric score or non-iterable sources |
| Display.TextSources | utils/data_formatter.py:372 | text in the sources entry counts as its distinct characters |
| Display.ConfidenceSumRange | utils/data_formatter.py:368 | with every score in [0, 100] the sum is between 0 and 100 times the count |
| Display.AverageInRange | utils/data_formatter.py:368 | with every score in [0, 100] so is the mean |
| Connector.Patterns | utils/databricks_connector.py:136 | one pattern per comma-separated piece, each stripped |
| Connector.DatabricksConnector.constructor | utils/databricks_connector.py:41-48 | a missing catalog or schema list becomes empty, and the cache starts empty |
| Connector.DatabricksConnector.ListAvailableTables | utils/databricks_connector.py:76-171 | a valid cache is returned unchanged unless a refresh is forced; a refresh that raises returns [] and leaves both fields alone; a successful one replaces the list and sets the timestamp |
| Connector.DatabricksConnector.CollectTables | utils/databricks_connector.py:130-157 | the row loop gives the entries of the kept rows, or fails when a row raises |
| Connector.DatabricksConnector.LoadTableData | utils/databricks_connector.py:185-228 | `load_table_data` gives the converted rows of its query, or the error text behind the fixed prefix |
| Connector.BuildTableQuery | utils/databricks_connector.py:190-197 | the query grows by WHERE, then LIMIT, as the code builds it |
| Connector.ConvertRows | utils/databricks_connector.py:208-220 | the row loop gives one dictionary per row, or fails on a short row |
| Connector.ConvertRow | utils/databricks_connector.py:210-219 | a row shorter than the columns raises; otherwise it becomes its dictionary |
| Connector.CacheNeedsBoth | utils/databricks_connector.py:70-71 | without a list or a timestamp the cache is invalid |
| Connector.CacheWindow | utils/databricks_connector.py:73-74 | a stored list is valid exactly while less than the duration has elapsed |
| Connector.CacheMonotone | utils/databricks_connector.py:68-74 | a cache valid at one reading was valid at every earlier one |
| Connector.FreshCache | utils/databricks_connector.py:162-164 | right after a refresh the cache is valid exactly when the duration is positive |
| Connector.AnyMatchFirst | utils/databricks_connector.py:137 | the search reports a match exactly when some pattern matches and every earlier one searched without a match |
| Connector.AnyMatchNoErrors | utils/databricks_connector.py:137 | when no search raises, a name matches exactly when one of the patterns does |
| Connector.PatternFilter | utils/databricks_connector.py:135-138 | with a pattern and no search raising, a row is kept exactly when some stripped piece matches its table name |
| Connector.NoPatternKeepsAll | utils/databricks_connector.py:130-157 | without a pattern every four-cell row is listed, in query order |
| Connector.NoPatternListsEntries | utils/databricks_connector.py:130-157 | without a pattern the listing is the entries of all rows |
| Connector.KeptWithoutPattern | utils/databricks_connector.py:135 | without a pattern a four-cell row is kept |
| Connector.FullNames | utils/databricks_connector.py:132 | every entry's full name is catalog, schema and table joined by dots |
| Connector.RowRaises | utils/databricks_connector.py:166-169 | a row that raises empties the whole listing |
| Connector.TablesFromFails | utils/databricks_connector.py:130-169 | once a row raises, the whole listing fails, whatever rows follow |
| Connector.UnpackFails | utils/databricks_connector.py:131 | a row without exactly four cells cannot be unpacked |
| Connector.CatalogFilterShape | utils/databricks_connector.py:103-106 | no catalogs give no filter; two give the quoted IN list |
| Connector.ListQueryExcludesInformationSchema | utils/databricks_connector.py:113-125 | the listing query always excludes the information schema |
| Connector.PlainQuery | utils/databricks_connector.py:190 | with neither batch id nor limit the query selects the whole table |
| Connector.ZeroLimit | utils/databricks_connector.py:196-197 | a limit of 0 adds no LIMIT clause |
| Connector.WhereThenLimit | utils/databricks_connector.py:193-197 | the WHERE clause follows the table name and the LIMIT clause follows it |
| Connector.ProbeQuery | utils/databricks_connector.py:190-197 | the search's probe is the batch's WHERE clause with LIMIT 1 |
| Connector.RowDictKeys | utils/databricks_connector.py:210-215 | a row's dictionary has exactly one key per distinct column |
| Connector.RowDictLastWins | utils/databricks_connector.py:211-219 | each column holds the converted cell of its last occurrence |
| Connector.ConvertedRowsSpec | utils/databricks_connector.py:208-220 | the rows convert exactly when none is shorter than the columns, one dictionary per row in order |
| Connector.ConvertedRowsFails | utils/databricks_connector.py:208-220 | once a row fails to convert, the whole load fails, whatever rows follow |
| Connector.LoadErrors | utils/databricks_connector.py:227-228 | a failure to connect or to run the query is re-raised with its text behind the fixed prefix |
| FileHandler.LastDot | utils/file_handler.py:24 | the split point is the last dot; there is none exactly when the name has no dot |
| FileHandler.NoDotRefused | utils/file_handler.py:23 | a name without a dot is refused |
| FileHandler.ValidateFileIff | utils/file_handler.py:10-24 | accepted exactly when the name is a stem, a dot and a dot-free ending whose lower-case form is allowed |
| FileHandler.LastSuffixDecides | utils/file_handler.py:24 | for a stem and a dot-free ending, only the ending decides |
| FileHandler.UpperCaseAccepted | utils/file_handler.py:24 | "a.CSV" is accepted |
| FileHandler.InnerDotIgnored | utils/file_handler.py:24 | "a.exe.csv" is accepted |
| FileHandler.LastSuffixCounts | utils/file_handler.py:24 | "a.csv.exe" is refused |
| FileHandler.TrailingDotRefused | utils/file_handler.py:24 | a trailing dot leaves an empty extension, which is refused |
| App.FirstStop | app.py:104-122 | independent reference: the first table at which the loop stops, or none |
| App.ProbeTable | app.py:113-120 | the full load happens exactly when the limit-1 probe finds rows, and gives the table's load of the batch |
| App.FindBatchTable | app.py:104-125 | the loop ends with the search's target and data, and probes the tables listed by `Probed` |
| App.MetadataNeverProbed | app.py:107-109 | no table whose name contains `csv_upload_details` is probed |
| App.ProbesStopAtFirstStop | app.py:104-122 | tables are probed in listing order, and none after the first stop |
| App.NoStopKeepsData | app.py:123-125 | without a stop the search leaves `table_data` unset |
| App.StopsAtFirstStop | app.py:116-122 | at the first stop the search ends with that table and its full load, whatever failed reloads left before |
| App.LocateIsFirstStop | app.py:104-129 | the search ends at the first stop; the batch is found there when that stop's full load has rows and the table has a name, otherwise not found |
| App.EmptyFirstStopHidesLaterRows | app.py:104-129 | a first stop whose full load is empty gives not found, even when a later stopping table loads rows |
| App.ProbeMissSkipped | app.py:123-125 | a probe that raises or finds nothing only moves the search on |
| App.RenderDashboard | app.py:136-154 | the rows are parsed, formatted, counted and given their sorted distinct cities |
| App.DashboardRoute | app.py:83-129 | no batch id gives 400 with the connector untouched; no connector gives 500; otherwise the page of the table list seen, and the connector's cache is kept on a hit or a failed listing and holds the new listing and its time otherwise |
| App.DashboardForTables | app.py:98-154 | the page for the batch once the table list is known |
| App.RenderExport | app.py:217-218 | the exported records are the formatted parsed rows |
| App.ExportRoute | app.py:181-212 | no batch id gives 400 with the connector untouched; no connector gives 500; otherwise the export of the table list seen, and the connector's cache is kept on a hit or a failed listing and holds the new listing and its time otherwise |
| App.ExportForTables | app.py:191-218 | the export for the batch once the table list is known |
| App.FoundTableParses | app.py:136 | every loaded row parses, one record per row, in order |
| App.NoParsedDataUnreachable | app.py:138-140 | a found table never leads to the "no valid provider data" page |
| App.SummaryBounded | app.py:146-151 | the total is the record count, and the three counts add up to at most that |
| App.PageRecords | app.py:136-147 | each record on a found table's page is its parsed row without the address, and the total is the row count |
| App.RowsPage | app.py:136-147 | on the rows of a table, the page lists each row parsed and without its address, in order, and counts them all |
| App.CityTextsMembers | app.py:154 | the city texts are exactly the non-empty text cities of the records |
| App.PageCities | app.py:154 | the page's cities are strictly sorted, hold no duplicates and are exactly those cities |

## Left out

- Flask routing and templates are not modelled. Neither are `send_file`, the CSV file written by the export and its clean-up, nor the index route. These are presentation and I/O. The export is modelled up to the records it would write.
- Connections, cursors and their closing are not modelled. The `print` diagnostics, `test_connection` and utils/backend_connector.py are not part of this model either. A warehouse is a value whose `execute` is a function of the statement text.
- The warehouse is deterministic. A statement sent twice gives the same result, so "a valid cache queries nothing" shows only as a result that does not depend on the warehouse.
- `re.search` and `datetime.now()` are parameters. No regular-expression semantics are modelled.
- The SQL statements are modelled as the text built. No parameter binding is claimed, because the code does none. The whitespace of the listing query follows the source's layout.
- Display.SummaryStats gives the mean and the verification rate as exact fractions. `round(..., 1)` is not modelled.
- `parsed_at` (the wall clock) is not stored in an uploaded record.
- Values.Show: `str()` of a float is exact only for integral floats below 10^16. Other floats show their truncated integer part and ".0".
- UploadedRows.ConfidenceValue: `int(x * 100)` is computed exactly, without binary floating point. A value such as 0.29 scores 29 here, and may score 28 in Python.
- Decimal.ParseFloat does not accept digit-group underscores, `inf`, `nan`, or whitespace inside the number.
- Decimal.ParseFloat reads only the ASCII digits 0-9. Python's `float()` also accepts the decimal digits of other scripts, so "٨٥" is 85.0 in Python and not a number here (a score of 0).
- Decimal.ParseFloat computes exactly and never overflows. In Python a value beyond about 1.8e308 in magnitude becomes an infinity, and so does a score below about -1.8e306 once it is multiplied by 100. `int()` of an infinity raises, and the `except` gives 0. Here such a negative value, "-1e400" for one, scores its exact truncation (-10^402). A positive infinity is above 100 and gives 0 both here and in Python.
- Decimal.NoDigitsNoNumber: "digit" means an ASCII digit. Text whose only digits come from other scripts can be a number in Python.
- Text.Lower: only the capitals of ASCII and Latin-1 (U+00C0 to U+00DE, except U+00D7) and the Kelvin sign are lower-cased. Every other capital keeps its case, for example Greek, Cyrillic, Latin Extended and the Angstrom sign. Python also turns U+0130 into two characters, an "i" and U+0307; here it stays as it is.
- UploadedRows.AddressDiffersIff: for an address with capitals outside ASCII and Latin-1, or that differs from the other in such capitals, "differs other than in letter case" is decided with the limited `Lower`. So "Γ" against "γ" counts as changed here and as unchanged in Python.
- UploadedRows.StatusFromWord: the decision is stated in terms of the limited `Lower`, but it is the one Python makes. Every status word is ASCII. Besides the ASCII capitals, only the Kelvin sign and U+0130 lower-case to text that contains ASCII letters. The Kelvin sign is modelled, and U+0130 always leaves the non-ASCII U+0307, so its lower-cased text is never a status word. The column synonyms and the file extensions are compared the same way and are ASCII, so the same argument covers them. The hours indicators are ASCII substrings and none ends in "i", so the "i" that U+0130 leaves, always followed by U+0307, cannot complete one either.
- pandas is not modelled. An uploaded table is its column labels and rows of optional cell texts, with `pd.isna` standing for a missing cell. Column dtypes and inferred numbers are not modelled.
- A recognised column whose name occurs twice after normalisation is modelled as a per-row error. It carries the message pandas raises when a Series is tested for truth.
- Cell values are scalars (None, bool, int, float, str). A JSON value nested in a row is not modelled.
- The dictionary keys of the output records are an enumeration. Each key stands for the one string the source uses.
- App.PageFor: when a non-empty city is not text, sorting may raise or succeed in Python depending on the other values. The model gives the marker page `CitiesNotText` instead.
- The 500 pages "Failed to search for table" (app.py:131-133, 213-214) are not modelled. Their handlers can only be reached by an exception the model has no source for, because the search itself catches every probe and reload failure. The outer handler at app.py:171-174 is not modelled either. Apart from such exceptions, the one path that raises inside its scope is the `sorted` call at app.py:154 over cities of mixed types; the App.PageFor line above says how the model treats that case.
- The "Provider n" placeholder is modelled. The proofs show it is never used for a row that passes the essential check.
- UploadedRows.Variants gives no synonyms for the keys the uploaded mapping does not list.
- `handle_file_upload` and `get_file_size` of utils/file_handler.py are disk I/O and are not modelled.
