# Dataset transfer scripts, modelled in Dafny

This project models the scripts that move the regional housing datasets between
their three boundaries: the public Geo API and the rate barometer (HTTP), the
Azure Data Lake container `raw` (blobs under path prefixes), and the Azure SQL
databases. It also models the two small pieces of configuration the read-only
API reads: its `.env` generator and its settings class.

One Dafny module stands for one script (two scripts are split in two modules):

- `FetchCommunes` and `CommuneRecords`: `ingestion/API/fetch_communes.py`. The
  API key is attached as a header, a query parameter or a default bearer header;
  communes are fetched one department at a time, or all at once, and the lists
  are concatenated in department order. The records are flattened: the centre's
  two coordinates, the department and region names and the contour become
  scalar columns, the nested originals are dropped and the preferred columns
  come first.
- `SqlExportDefaults` and `SqlExport`: `analytics/export_to_sql.py`. Options
  fall back on `AZURE_SQL_*` variables, then on `Terraform/terraform.tfvars`.
  The SQL driver is negotiated over an ordered, de-duplicated candidate list
  with a `SELECT 1` probe. Tables are loaded chunk by chunk: empty tables are
  skipped, nested cells become JSON text, only the first chunk uses the
  requested `if_exists` and a failing chunk aborts with its row range.
- `DataLoader`: `analytics/data_loader.py`. The connection string comes from
  the option, then `ADLS_CONNECTION_STRING`, then the legacy variables in order.
  Blobs are listed under the CSV and JSON prefixes, cut to the limit and
  downloaded. The results are saved under flattened local names.
- `ScrapeTaux`: `ingestion/Scraping/scrape_taux.py`. Each region's answer is
  checked, the three rates of every loan duration are looked up, the update date
  is reformatted, and one row is built per region and duration. Also modelled:
  the SMTP password choice and the decision to send the e-mail.
- `SqlToAdlsBis`, `SqlUrl` and `UrlQuote`: `analytics/sql_to_adls_bis.py`, and
  the SQLAlchemy URL shared with `export_to_sql.py`. Every table of the second
  database is read with one query and uploaded as one Parquet blob named after
  it.
- `GenerateEnv`: `analytics/api/generate_env.py`. It guesses the SQL parameters
  from the tfvars file and writes the `.env` file only when it is absent.
- `ApiConfig`: `analytics/api/app/config.py`. The settings and their defaults,
  the validation of `ALLOWED_TABLES`, the DSN and the allowed-table set.
- `Common` and `Json`: shared vocabulary. `Common` holds optional values,
  results, Python's `strip`, `split`, `join` and `replace`, truthiness, ordered
  fallback and de-duplication. `Json` is the semi-structured value the scripts
  get from `response.json()` and `json.loads`, with objects keeping their field
  order.

Everything outside the process is a function-typed parameter. That covers HTTP
GET, the SQL probe and `to_sql`, blob listing, download and upload,
`strptime`, `json.dumps` and `pd.json_normalize`. Environment variables are a
map. A file is `Option<seq<string>>`: `None` when it is missing, otherwise its
lines. The loops of the scripts (auth payload, department loop, tfvars readers,
driver negotiation, chunked loading, blob fetching, region loop, table copy) are
methods. Each of them is proved against a function that states what the loop
computes, and the properties are proved as lemmas about those functions.

Three points of the code are worth stating:

- Blob listings keep the order the service returns: `list_blobs` does not
  sort.
- Nested cells are serialised only in object-dtype columns, as the code does.
  Lists and dictionaries can only live in such columns, so the model applies
  the serialisation to every cell. That is the same result.
- The `.env` generator and the API settings are modelled with the scripts:
  they decide which SQL parameters the API reads.

## Model

| member | source | states |
|---|---|---|
| FetchCommunes.BuildAuthPayload | ingestion/API/fetch_communes.py:96-113 | with no key, no header and no parameter; otherwise the named header and/or the named query parameter carry prefix + key, and when neither is named an `Authorization` header carries prefix + key, or `Bearer ` + key when the prefix is empty |
| FetchCommunes.BaseParams | ingestion/API/fetch_communes.py:126-131 | the query holds `fields`, `format=json` and `geometry` plus every key parameter, and a key parameter of the same name overrides the fixed one |
| FetchCommunes.NonEmptyCodes | ingestion/API/fetch_communes.py:136-138 | the kept department codes are exactly the non-empty ones |
| FetchCommunes.PlannedCalls | ingestion/API/fetch_communes.py:135-152 | one call per non-empty code when departments are given, else one; every call has the given headers; a call names a department exactly in the partitioned branch, a non-empty given code, with the base query plus `codeDepartement`; the single call uses the base query |
| FetchCommunes.Collect | ingestion/API/fetch_communes.py:135-154 | the requests sent are those of the first calls, in order; all of them when the fetch succeeds; on failure the last one sent is the call whose answer raised that error |
| FetchCommunes.FetchCommunes | ingestion/API/fetch_communes.py:116-154 | the requests sent and the outcome equal `Collect` over the planned calls: one GET per non-empty department code, or a single GET without `codeDepartement` |
| FetchCommunes.FetchByDepartement | ingestion/API/fetch_communes.py:135-145 | the per-department loop skips empty codes and sends the requests, and gets the outcome, that `Collect` gives over the planned calls |
| FetchCommunes.CollectSnoc | ingestion/API/fetch_communes.py:136-145 | one more department: skipped after a failure, otherwise its request is sent and its list appended, or its error becomes the outcome |
| FetchCommunes.PlannedCallsFor | ingestion/API/fetch_communes.py:136-140 | one call per code |
| FetchCommunes.PlannedCallsForSnoc | ingestion/API/fetch_communes.py:139-140 | the call for a further code carries the base query with `codeDepartement` set to that code |
| FetchCommunes.NonEmptyCodesSnoc | ingestion/API/fetch_communes.py:136-138 | filtering one more code appends it unless it is empty |
| FetchCommunes.NonEmptyCodesAppend | ingestion/API/fetch_communes.py:136-138 | filtering keeps the order of the codes |
| FetchCommunes.PlannedPrefix | ingestion/API/fetch_communes.py:136-140 | the calls planned for a prefix of the codes are a prefix of the calls planned for all of them |
| FetchCommunes.CollectStaysFailed | ingestion/API/fetch_communes.py:141-144 | once a call has failed, later calls change neither the requests sent nor the error |
| FetchCommunes.PlannedCallsShape | ingestion/API/fetch_communes.py:135-147 | with departments, the k-th call is for the k-th non-empty code and its query is the base query with that code; without, one call with the base query |
| FetchCommunes.RequestsCarryBaseParams | ingestion/API/fetch_communes.py:126-140 | every request carries the key parameters and, unless overridden, `fields`, `format=json` and `geometry` |
| FetchCommunes.CollectAllLists | ingestion/API/fetch_communes.py:135-154 | when every GET answers a list, every request is sent in order and the payload is the in-order concatenation of the lists |
| FetchCommunes.CollectFirstFailure | ingestion/API/fetch_communes.py:140-144 | at the first GET that fails or answers no list, exactly the requests up to it were sent and the error names its department |
| FetchCommunes.MainDepartements | ingestion/API/fetch_communes.py:229 | an empty argument list gives no departments, otherwise the non-empty codes |
| FetchCommunes.MainCallCount | ingestion/API/fetch_communes.py:229-246 | `main` issues one GET per non-empty code, or a single unfiltered GET when none is left |
| FetchCommunes.NonEmptyCodesIdempotent | ingestion/API/fetch_communes.py:229 | filtering the codes a second time changes nothing |
| CommuneRecords.ExtractCoord | ingestion/API/fetch_communes.py:162-167 | `coordinates[index]` of a dictionary whose `coordinates` list is long enough; `None` for a non-dictionary, a dictionary without `coordinates`, a `coordinates` that is not a list, or a `coordinates` list of length at most `index` |
| CommuneRecords.NomOf | ingestion/API/fetch_communes.py:172-177 | the `nom` entry of a dictionary that has one, `None` otherwise |
| CommuneRecords.GeoJsonOf | ingestion/API/fetch_communes.py:179-181 | a dictionary is kept as it is, anything else becomes `None` |
| CommuneRecords.NamesAppend | ingestion/API/fetch_communes.py:183-202 | the column names of two frames side by side are the two name lists in order |
| CommuneRecords.ColumnNames | ingestion/API/fetch_communes.py:158 | the columns of the frame built from the records have distinct names |
| CommuneRecords.FromRows | ingestion/API/fetch_communes.py:158 | every column of the built frame has one cell per record, and the columns are the records' keys in first-seen order |
| CommuneRecords.ColumnIndex | ingestion/API/fetch_communes.py:169-181 | the position of the column with a given name, or none when no column has it |
| CommuneRecords.Lookup | ingestion/API/fetch_communes.py:169-181 | `df.get(name)`: the cells of the named column exactly when the frame has it |
| CommuneRecords.AddName | ingestion/API/fetch_communes.py:169-181 | assigning a column adds its name when new and keeps the names distinct |
| CommuneRecords.SetColumn | ingestion/API/fetch_communes.py:169-181 | `df[name] = cells` sets the named column to the new cells and leaves every other column unchanged |
| CommuneRecords.DeriveCells | ingestion/API/fetch_communes.py:169-181 | a derived column has one cell per record |
| CommuneRecords.DeriveColumn | ingestion/API/fetch_communes.py:169-181 | deriving a column keeps every column at one cell per record |
| CommuneRecords.DropColumns | ingestion/API/fetch_communes.py:183-185 | dropping removes exactly the named columns, keeping the others in order |
| CommuneRecords.PresentIn | ingestion/API/fetch_communes.py:201 | the preferred names that the frame has |
| CommuneRecords.PickPreferred | ingestion/API/fetch_communes.py:201-202 | the preferred columns present, in preferred order, each taken from the frame |
| CommuneRecords.Reorder | ingestion/API/fetch_communes.py:201-202 | the column order is the preferred columns present followed by the others in frame order |
| CommuneRecords.Records | ingestion/API/fetch_communes.py:204 | `to_dict(orient="records")`: one record per row, pairing each column name with that row's cell |
| CommuneRecords.ToRecords | ingestion/API/fetch_communes.py:157-204 | an empty frame gives no records, otherwise one record per commune |
| CommuneRecords.FinalFrame | ingestion/API/fetch_communes.py:158-202 | the frame after derivation, dropping and reordering still has one cell per record in every column |
| CommuneRecords.DeriveAll | ingestion/API/fetch_communes.py:169-181 | the five derived columns keep one cell per record |
| CommuneRecords.DeriveColumnAgrees | ingestion/API/fetch_communes.py:169-181 | after deriving a column, every cell is the value the derivation rules give for its record, and the names gain the derived one |
| CommuneRecords.DeriveCellsAgree | ingestion/API/fetch_communes.py:169-181 | each derived cell equals the value the derivation rules give for that record |
| CommuneRecords.DropAgrees | ingestion/API/fetch_communes.py:183-185 | dropping columns keeps every remaining cell's meaning |
| CommuneRecords.ReorderAgrees | ingestion/API/fetch_communes.py:201-202 | reordering keeps every cell's meaning and the names distinct |
| CommuneRecords.DeriveAllAgrees | ingestion/API/fetch_communes.py:169-181 | deriving the columns one after another gives cells that agree with the rules for all of them |
| CommuneRecords.FromRowsAgrees | ingestion/API/fetch_communes.py:158 | the built frame holds, for each record and key, the record's value, and the missing marker where a record lacks the key |
| CommuneRecords.OutputCell | ingestion/API/fetch_communes.py:158-181 | a derived cell is present exactly when some record has its source column; any other cell is present exactly when the record has that key, with its value |
| CommuneRecords.FinalFrameAgrees | ingestion/API/fetch_communes.py:158-202 | every cell of the final frame is the value the rules give for its record, and its names are the final name list |
| CommuneRecords.ToRecordsMeaning | ingestion/API/fetch_communes.py:157-204 | an empty frame gives no records; otherwise one record per commune, each pairing every final column with the value the rules give |
| CommuneRecords.RecordsOfFinalCells | ingestion/API/fetch_communes.py:204 | the records of an agreeing frame pair each name with the rule's value for that row |
| CommuneRecords.ArrangeMembers | ingestion/API/fetch_communes.py:201-202 | reordering neither adds nor loses a column |
| CommuneRecords.AddNamesShape | ingestion/API/fetch_communes.py:169-181 | after the assignments the names are the old and the derived ones, still distinct |
| CommuneRecords.WithDerivedShape | ingestion/API/fetch_communes.py:169-181 | the five derived columns are always present after the assignments |
| CommuneRecords.FinalNamesMembers | ingestion/API/fetch_communes.py:169-202 | the output has no `centre`, `departement`, `region` or `contour` column, has all five derived columns, and keeps every other input column |
| CommuneRecords.WithoutAppend | ingestion/API/fetch_communes.py:183-185 | dropping columns keeps their order |
| CommuneRecords.ArrangeIdempotent | ingestion/API/fetch_communes.py:201-202 | reordering an already ordered frame changes nothing |
| CommuneRecords.FinalNamesOrder | ingestion/API/fetch_communes.py:187-202 | the output names are distinct and already in preferred order |
| CommuneRecords.PresentInSameMembers | ingestion/API/fetch_communes.py:201 | the preferred columns present depend only on which names the frame has |
| CommuneRecords.CoordinatesOfCentre | ingestion/API/fetch_communes.py:169-170 | longitude and latitude are coordinates 0 and 1 of the record's `centre`, and missing for every record when no record has a `centre` |
| DataLoader.ConnectionSources | analytics/data_loader.py:128-135 | the places a connection string is looked for: the option, `ADLS_CONNECTION_STRING`, then the two legacy variables |
| DataLoader.ConnectionString | analytics/data_loader.py:128-141 | the first truthy of the option, `ADLS_CONNECTION_STRING`, `AZURE_STORAGE_CONNECTION_STRING` and `AZURE_DATALAKE_CONNECTION_STRING`; `MissingConnectionString` exactly when all four are unset or empty |
| DataLoader.ResolveConnectionString | analytics/data_loader.py:128-141 | the loop over the legacy variables returns what `ConnectionString` specifies |
| DataLoader.Limit | analytics/data_loader.py:80-81 | `names[:limit]`: a prefix of the names, all of them for no limit or 0, the first `limit` for a positive one, all but the last `-limit` for a negative one |
| DataLoader.Selected | analytics/data_loader.py:78-81 | nothing is listed for a missing or empty prefix, otherwise a prefix of the listing under it |
| DataLoader.Loaded | analytics/data_loader.py:82-90 | one loaded dataset per selected name |
| DataLoader.LoadPass | analytics/data_loader.py:82-90 | a pass succeeds exactly when every selected blob loads, pairing each name, in order, with what was loaded for it; otherwise it fails with the exception of a selected blob of that kind |
| DataLoader.LoadNames | analytics/data_loader.py:82-90 | the loop returns what `LoadPass` specifies and downloads the blobs up to and including the first that fails, or all of them |
| DataLoader.Downloads | analytics/data_loader.py:49-54 | one download per name |
| DataLoader.FailsHere | analytics/data_loader.py:82-90 | a blob that fails after blobs that loaded ends the pass with its exception, its download being the last |
| DataLoader.AllLoad | analytics/data_loader.py:82-90 | when every blob loads, the pass succeeds after downloading them all |
| DataLoader.LoadStopsAtFirst | analytics/data_loader.py:82-90 | a failed pass downloads a prefix of the names that ends at the failing blob, and every blob before it loaded |
| DataLoader.FetchDatasets | analytics/data_loader.py:69-92 | the CSV pass then the JSON pass return the results and the storage calls that `FetchRun` specifies, stopping at the first blob that fails to load |
| DataLoader.FetchedNames | analytics/data_loader.py:82-90 | a pass that loads everything keeps the selected names, in order |
| DataLoader.FetchAllLoaded | analytics/data_loader.py:69-92 | when every selected blob loads, the storage calls are the CSV listing and downloads followed by the JSON ones, and each kind's results name its selected blobs in order |
| DataLoader.FetchStopsAtFailure | analytics/data_loader.py:69-92 | a failed run ends with the download of the blob whose load raised, and a CSV failure leaves nothing but CSV downloads after the first listing |
| DataLoader.FlatName | analytics/data_loader.py:99-106 | a local file stem never contains `/` |
| DataLoader.FlatNameRoundTrip | analytics/data_loader.py:99-106 | a blob name without `_` is recovered from its local stem |
| DataLoader.FlatNameCollision | analytics/data_loader.py:99-106 | blobs `a/b` and `a__b` are saved under the same local name |
| DataLoader.LocalFileName | analytics/data_loader.py:99-106 | the local file name has no `/`, so every file lands directly in the output directory |
| DataLoader.ConversionSource | analytics/data_loader.py:103 | `payload["communes"]` for a dictionary that has it, the whole dictionary otherwise; a scalar, or a list or string that contains `"communes"`, cannot be subscripted |
| DataLoader.CsvFiles | analytics/data_loader.py:98-99 | one Parquet file per CSV data frame |
| DataLoader.ConversionError | analytics/data_loader.py:103 | a payload converts exactly when its conversion source exists and is a dictionary or a list; otherwise the subscript error, or the `json_normalize` error for a source of any other type |
| DataLoader.JsonFiles | analytics/data_loader.py:101-107 | one file per payload up to the first that cannot be converted, whose error (the subscript's `TypeError` or `json_normalize`'s rejection of a value that is neither a dictionary nor a list) ends the run; kept as JSON, nothing fails |
| DataLoader.SavePlan | analytics/data_loader.py:95-107 | the CSV files come first, one per data frame; a run without error writes one file per dataset, and an error is the conversion error of the JSON payload right after the files written |
| DataLoader.KeepJsonWritesAll | analytics/data_loader.py:101-107 | kept as JSON, every payload is written, in order, under its flattened blob name with `.json` |
| DataLoader.ConvertObjects | analytics/data_loader.py:101-104 | converted, every dictionary payload whose `communes` entry (or the dictionary itself without one) is a dictionary or a list becomes a Parquet file of it |
| DataLoader.ConvertStopsAtFirst | analytics/data_loader.py:101-104 | converted, the first payload that cannot be converted ends the run with its error, after one file per payload before it |
| DataLoader.SaveResults | analytics/data_loader.py:95-107 | the loops write the CSV files, then the JSON files, and stop at the first payload that cannot be converted, as `SavePlan` specifies |
| ScrapeTaux.FirstResult | ingestion/Scraping/scrape_taux.py:41-45 | the first element of a non-empty `res` list; `ValueError` when `res` is missing or falsy; success only when `res` is present and truthy |
| ScrapeTaux.FetchRegionData | ingestion/Scraping/scrape_taux.py:38-45 | a failed GET gives the HTTP error for the region, otherwise the first result of the answer |
| ScrapeTaux.RateKey | ingestion/Scraping/scrape_taux.py:48-51 | a rate key is the letter, the duration and a final `f` |
| ScrapeTaux.RateKeyRoundTrip | ingestion/Scraping/scrape_taux.py:48-51 | the letter and the duration are read back from the key |
| ScrapeTaux.RateKeysDistinct | ingestion/Scraping/scrape_taux.py:48-51 | different letters or durations never share a key |
| ScrapeTaux.DecimalText | ingestion/Scraping/scrape_taux.py:54-56 | a string rate has its decimal comma turned into a point, keeping its length; any other value fails as `.replace` would |
| ScrapeTaux.ExtractRates | ingestion/Scraping/scrape_taux.py:47-61 | rates are read only from a dictionary holding all three keys of the duration, and none of them keeps a decimal comma |
| ScrapeTaux.ExtractRatesMeaning | ingestion/Scraping/scrape_taux.py:47-61 | the three rates are read exactly when the entry is a dictionary holding all three keys of the duration; `KeyError` exactly when one is missing or null |
| ScrapeTaux.Pad2 | ingestion/Scraping/scrape_taux.py:70 | a day or month is written with at least two digits |
| ScrapeTaux.Pad2RoundTrip | ingestion/Scraping/scrape_taux.py:70 | a two-digit field reads back as the same number |
| ScrapeTaux.Pad2NoSlash | ingestion/Scraping/scrape_taux.py:70 | a two-digit field holds no `/` |
| ScrapeTaux.FormatDmy | ingestion/Scraping/scrape_taux.py:70 | a date written `DD/MM/YYYY` reads back as the same date |
| ScrapeTaux.DateCell | ingestion/Scraping/scrape_taux.py:67-74 | no date for a missing or falsy `date`; a parsed date rewritten `DD/MM/YYYY`; a date that does not parse kept as it is |
| ScrapeTaux.ThenThen | ingestion/Scraping/scrape_taux.py:64-85 | appending rows in two steps is appending them in one |
| ScrapeTaux.ThenNothing | ingestion/Scraping/scrape_taux.py:64-85 | appending no rows changes nothing |
| ScrapeTaux.Gather | ingestion/Scraping/scrape_taux.py:65-84 | a failing loop fails with the error of one of its items |
| ScrapeTaux.GatherStep | ingestion/Scraping/scrape_taux.py:65-84 | when the loop succeeds, its rows are the first item's rows followed by the rest's |
| ScrapeTaux.GatherShape | ingestion/Scraping/scrape_taux.py:65-84 | when each item gives `k` rows, the loop gives `k` rows per item, row `k*i+j` being item `i`'s row `j` |
| ScrapeTaux.GatherFirstError | ingestion/Scraping/scrape_taux.py:65-84 | the loop fails exactly when an item fails, with the error of the first failing item |
| ScrapeTaux.RegionResult | ingestion/Scraping/scrape_taux.py:66-84 | a failed fetch fails the region with that error; a region that succeeds was fetched and its date was read |
| ScrapeTaux.Dataset | ingestion/Scraping/scrape_taux.py:63-85 | a failing dataset fails with the error of one of the regions |
| ScrapeTaux.RegionResultShape | ingestion/Scraping/scrape_taux.py:66-84 | a region gives one row per duration, in order, with its name, its date and the rates read for that duration |
| ScrapeTaux.DatasetShape | ingestion/Scraping/scrape_taux.py:63-85 | the dataset has 40 rows, row `5*i+j` for region `i` and duration `j` |
| ScrapeTaux.BuildDataset | ingestion/Scraping/scrape_taux.py:63-85 | the nested loops return the rows or the first error that `Dataset` specifies |
| ScrapeTaux.GatherRegions | ingestion/Scraping/scrape_taux.py:65-84 | the loop over any list of regions returns the rows of every region in order, or the first region's error, as `Gather` specifies |
| ScrapeTaux.RegionPass | ingestion/Scraping/scrape_taux.py:66-84 | one pass of the region loop returns what `RegionResult` specifies: the fetch error, the date error, or the region's rows |
| ScrapeTaux.DurationRows | ingestion/Scraping/scrape_taux.py:75-84 | the inner loop returns one row per duration, or the first extraction error |
| ScrapeTaux.ResolveSmtpPassword | ingestion/Scraping/scrape_taux.py:87-95 | a named variable wins and must be set; otherwise a truthy password option; otherwise none |
| ScrapeTaux.PasswordVariableOverrides | ingestion/Scraping/scrape_taux.py:89-94 | once a password variable is named, the password option is ignored |
| ScrapeTaux.ShouldEmail | ingestion/Scraping/scrape_taux.py:158-170 | mail is sent exactly when recipient, server and user are all truthy; a recipient alone gives the warning; no recipient, nothing |
| SqlUrl.DriverToken | analytics/export_to_sql.py:132 | the token has the driver name's length and no space left in it |
| SqlUrl.DriverTokenEach | analytics/export_to_sql.py:132 | every space of the driver name becomes `+` and every other character is kept |
| SqlUrl.DriverTokenRoundTrip | analytics/export_to_sql.py:132 | a driver name without `+` is recovered from its token |
| SqlUrl.PyodbcUrl | analytics/export_to_sql.py:133 | the URL opens with the `mssql+pyodbc://` scheme; `PyodbcUrlRoundTrip` shows that each part can be read back |
| SqlUrl.PyodbcUrlRoundTrip | analytics/export_to_sql.py:133 | the user, password, server, port, database and driver are read back out of the URL when none holds the delimiter that ends it |
| SqlExport.DriverCandidates | analytics/export_to_sql.py:119-131 | the given driver first when non-empty, then the three fallbacks, with no duplicate |
| SqlExport.FallbackDriversDistinct | analytics/export_to_sql.py:122-128 | the three fallback drivers are distinct |
| SqlExport.DriverCandidatesOrder | analytics/export_to_sql.py:119-131 | `dict.fromkeys` keeps first occurrences: the fallbacks alone, or the given driver followed by the fallbacks other than it |
| SqlExport.Negotiate | analytics/export_to_sql.py:118-157 | the engine returned is built for a candidate with that candidate's URL and its probe succeeds; a candidate whose engine cannot be built ends the search with that exception; when every engine is built and every probe fails, one attempt per candidate, in order, with its probe error |
| SqlExport.NegotiateAmong | analytics/export_to_sql.py:130-157 | over any candidate list: success names a listed driver whose engine was built and whose probe succeeds, with its URL; a build failure names a listed driver and the exception raised for its URL; otherwise one attempt per candidate, in order, each built and failing its probe with the recorded error |
| SqlExport.StopsAtFirstAmong | analytics/export_to_sql.py:131-146 | when the search ends early, with an engine or a build failure, the candidates tried are a prefix of the list ending at that driver, and every earlier one was built and failed its probe |
| SqlExport.StopsHere | analytics/export_to_sql.py:131-146 | when candidate i is the first that does not fail to connect, the search tries exactly the first i+1 candidates and ends with its build exception, or else with its engine |
| SqlExport.NoneConnects | analytics/export_to_sql.py:143-157 | when every engine is built and every probe fails, the search tries every candidate and fails with exactly the recorded attempts |
| SqlExport.FirstBuildFailureAborts | analytics/export_to_sql.py:131-134 | when no engine can be built for the first candidate's URL, the search raises that exception after trying only that candidate, before any connection |
| SqlExport.AllTriedAmong | analytics/export_to_sql.py:131-157 | when no driver connects, every candidate was tried and the error lists them in order |
| SqlExport.CreateEngine | analytics/export_to_sql.py:118-157 | the loop returns the outcome `Negotiate` specifies and tries exactly the drivers `Tried` names |
| SqlExport.TryCandidates | analytics/export_to_sql.py:130-157 | the candidate loop, building each engine and then probing it, returns the outcome `NegotiateAmong` specifies and tries exactly the drivers `TriedAmong` names |
| SqlExport.AttemptDrivers | analytics/export_to_sql.py:150 | the drivers of the failed attempts, in order |
| SqlExport.NoDriverMessage | analytics/export_to_sql.py:148-157 | the error text has the three fixed lines, the list of drivers tried, and one line per attempt with its error |
| SqlExport.SerializeNested | analytics/export_to_sql.py:167-171 | a list or dictionary becomes its JSON text and nothing nested remains |
| SqlExport.SerializeNestedKeeps | analytics/export_to_sql.py:167-171 | scalars are kept, and serialising twice is serialising once |
| SqlExport.SerializeRows | analytics/export_to_sql.py:179-182 | every cell of every row is serialised and the shape is kept |
| SqlExport.ChunkAt | analytics/export_to_sql.py:185-187 | the chunk at `start` is a run of the rows from `start` on, holding `chunksize` of them (at least one) unless it reaches the end of the table, with the caller's `if_exists` only at row 0 and `append` after |
| SqlExport.RunFrom | analytics/export_to_sql.py:184-201 | a run of the chunk loop can only fail with a chunk error for its own table |
| SqlExport.RunFromStep | analytics/export_to_sql.py:184-201 | the first chunk is written first; after a success the loop goes on from the next chunk, after a failure it stops |
| SqlExport.RunFromSucceeds | analytics/export_to_sql.py:185-201 | when every chunk is written, the chunks cover the rows exactly, in order |
| SqlExport.SucceedsAfterSuccess | analytics/export_to_sql.py:185-201 | a successful first chunk puts its rows in front of the rows the rest of the loop writes |
| SqlExport.RunFromFails | analytics/export_to_sql.py:185-200 | a failure is a chunk error for the table naming the first and last rows of the failing chunk, at most one chunk apart; that chunk is the last write attempted, holds exactly those rows, and its write raised the error's cause |
| SqlExport.FailedLastAfterSuccess | analytics/export_to_sql.py:185-201 | a successful first chunk leaves the failing chunk of the rest as the last write and the error's subject |
| SqlExport.FailedLastHere | analytics/export_to_sql.py:186-200 | a first chunk whose write fails is the last write, and the error names its rows and carries the writer's message |
| SqlExport.RunFromFailsRows | analytics/export_to_sql.py:185-200 | when a run from `start` fails, the error is a chunk error whose last row lies within the table, and the rows written, in order, are exactly the table's rows from `start` through that last row |
| SqlExport.FailsRowsAfterSuccess | analytics/export_to_sql.py:185-200 | a successful chunk followed by a run that fails as `FailsWithRows` describes still fails that way from the earlier start |
| SqlExport.FailsRowsHere | analytics/export_to_sql.py:185-200 | a chunk whose write fails ends the run with a chunk error for exactly that chunk's rows |
| SqlExport.RunFromWrite | analytics/export_to_sql.py:184-201 | every chunk goes to the table's schema with its columns, holds 1 to `chunksize` rows, uses the caller's `if_exists` for the first chunk and `append` after; every chunk before the last is full and was written |
| SqlExport.NthStart | analytics/export_to_sql.py:185 | the k-th chunk starts `k * chunksize` rows after the start |
| SqlExport.RunFromStarts | analytics/export_to_sql.py:185-186 | the k-th write is the chunk starting at row `k * chunksize` |
| SqlExport.ChunkCountCeiling | analytics/export_to_sql.py:185 | the number of chunks is the ceiling of rows over chunk size |
| SqlExport.RunFromCount | analytics/export_to_sql.py:185-201 | a successful load writes that many chunks |
| SqlExport.TableRun | analytics/export_to_sql.py:173-182 | an empty table is skipped and a zero chunk size fails before any write |
| SqlExport.ExportFirstFailure | analytics/export_to_sql.py:173-203 | the export raises the error of the first table whose load fails, and completes when none does |
| SqlExport.ExportRun | analytics/export_to_sql.py:173-203 | an export that fails does so with the error of one of the tables' loads |
| SqlExport.ExportTables | analytics/export_to_sql.py:160-203 | the loop over the tables returns the writes and error `ExportRun` specifies |
| SqlExport.LoadTable | analytics/export_to_sql.py:173-201 | the chunk loop of one table returns the writes and error `TableRun` specifies |
| SqlExport.WriteChunks | analytics/export_to_sql.py:184-201 | the chunk loop, for a positive chunk size, returns the writes and error `RunFrom` specifies from row 0 |
| SqlExport.WriteChunk | analytics/export_to_sql.py:185-201 | one pass writes the chunk `ChunkAt` names; after a success the loop resumes at the next start, after a failure the writes so far and the error are the whole loop's outcome |
| SqlExport.ChunkSucceeds | analytics/export_to_sql.py:185-201 | a chunk written without error is followed by the rest of the loop |
| SqlExport.ChunkFails | analytics/export_to_sql.py:186-200 | a chunk whose write fails is the last write, and the error names its rows |
| SqlExportDefaults.MatchAssignment | analytics/export_to_sql.py:95-102 | a matched line gives an identifier key and a value without double quotes |
| SqlExportDefaults.MatchAssignmentComplete | analytics/export_to_sql.py:95-102 | every line of the shape `blanks key blanks = blanks "value" anything` matches, giving that key and value |
| SqlExportDefaults.MatchAssignmentSound | analytics/export_to_sql.py:95-102 | every line that matches has that shape, with the key and value returned |
| SqlExportDefaults.SqlDefaults | analytics/export_to_sql.py:105-115 | `server` is the non-empty `sql_server_name` with `.database.windows.net`; `username`, `password` and `database` are copied whenever their tfvars key is present; nothing else |
| SqlExportDefaults.LoadSqlDefaultsFromTfvars | analytics/export_to_sql.py:90-115 | no file gives no defaults; otherwise the defaults derived from the matched assignments |
| SqlExportDefaults.CopyValue | analytics/export_to_sql.py:109-114 | one `if key in values` step: the default is set to the assignment's value exactly when the key was assigned, even to an empty string |
| SqlExportDefaults.LastAssignmentWins | analytics/export_to_sql.py:98-103 | a key assigned on several lines keeps the value of its last assignment |
| SqlExportDefaults.OnlyAssignmentsRecorded | analytics/export_to_sql.py:98-103 | every recorded key comes from a line that matched |
| SqlExportDefaults.OptionOrEnv | analytics/export_to_sql.py:52-71 | an option given on the command line wins over its variable |
| SqlExportDefaults.ParsedArgs | analytics/export_to_sql.py:57-61 | after parsing the database is always set, since its default is `projet_data_eng` |
| SqlExportDefaults.ApplyTfvars | analytics/export_to_sql.py:212-219 | a falsy server, username or password is replaced by its tfvars default; the database only when it is `None` and the tfvars one is truthy |
| SqlExportDefaults.MissingParams | analytics/export_to_sql.py:221 | the names of exactly the falsy ones among server, username and password, never the database, each once |
| SqlExportDefaults.ResolveSqlArgs | analytics/export_to_sql.py:210-226 | the arguments after the tfvars defaults, or the `ValueError` listing the missing ones, exactly when some are missing |
| SqlExportDefaults.CliBeatsTfvars | analytics/export_to_sql.py:212-226 | truthy command-line or environment values are kept and never replaced; a successful resolution has all three truthy |
| SqlExportDefaults.TfvarsDatabaseUnused | analytics/export_to_sql.py:214-215 | the tfvars database never replaces the parsed one, because the parsed database is never `None` |
| SqlToAdlsBis.DatabaseDefault | analytics/sql_to_adls_bis.py:41 | a non-empty `AZURE_SQL_DATABASE_BIS`, else `AZURE_SQL_DATABASE` when set, else `projet_data_eng_bis` |
| SqlToAdlsBis.AdlsDefault | analytics/sql_to_adls_bis.py:72 | a non-empty `ADLS_CONNECTION_STRING`, else `AZURE_STORAGE_CONNECTION_STRING`; truthy when either is |
| SqlToAdlsBis.ParsedSqlDefaults | analytics/sql_to_adls_bis.py:34-63 | options left out take their variables, the driver and schema falling back on ODBC Driver 18 and `dbo` |
| SqlToAdlsBis.ParsedAdlsDefaults | analytics/sql_to_adls_bis.py:64-89 | left out, the tables are the 13 defaults, the container `raw`, the prefix `sql-bis/` and there is no limit |
| SqlToAdlsBis.ParseArgs | analytics/sql_to_adls_bis.py:30-90 | an option given on the command line wins over every default, and the limit is only ever the option |
| SqlToAdlsBis.DatabaseDefaultEmpty | analytics/sql_to_adls_bis.py:41 | the default database is empty only when `AZURE_SQL_DATABASE_BIS` is falsy and `AZURE_SQL_DATABASE` is set to the empty string |
| SqlToAdlsBis.ReadRender | analytics/sql_to_adls_bis.py:96-104 | fields written as key, value and end character read back as the same values and tail, when no value holds its end character |
| SqlToAdlsBis.Render | analytics/sql_to_adls_bis.py:96-104 | the fields are written in front of the tail, which ends the text |
| SqlToAdlsBis.OdbcString | analytics/sql_to_adls_bis.py:96-104 | the connection string ends with `Encrypt=yes;TrustServerCertificate=yes;` |
| SqlToAdlsBis.OdbcStringRoundTrip | analytics/sql_to_adls_bis.py:96-104 | driver, server, port, database, user and password are read back from the ODBC string |
| SqlToAdlsBis.EngineUrl | analytics/sql_to_adls_bis.py:96-105 | the URL is `mssql+pyodbc:///?odbc_connect=` followed by a single query value holding no `&` or `;` |
| SqlToAdlsBis.OdbcStringAscii | analytics/sql_to_adls_bis.py:96-104 | ASCII parameters give an ASCII connection string |
| SqlToAdlsBis.EngineUrlRoundTrip | analytics/sql_to_adls_bis.py:96-105 | unquoting the URL's query value gives the ODBC string back, and from it every parameter |
| SqlToAdlsBis.CheckArgs | analytics/sql_to_adls_bis.py:139-148 | the engine parameters, with port 1433, exactly when server, database, username, password and the ADLS string are all truthy; otherwise the missing SQL names in field order, or the missing ADLS string |
| SqlToAdlsBis.MissingSqlFirst | analytics/sql_to_adls_bis.py:139-146 | missing SQL parameters are reported before a missing ADLS string |
| SqlToAdlsBis.FetchQuery | analytics/sql_to_adls_bis.py:112-115 | the query always reads from `schema.table` |
| SqlToAdlsBis.FetchQueryTop | analytics/sql_to_adls_bis.py:114-115 | a truthy limit appears as `TOP (limit)` and reads back as that integer |
| SqlToAdlsBis.FetchQueryAll | analytics/sql_to_adls_bis.py:113-114 | without a truthy limit the query has no `TOP` |
| SqlToAdlsBis.BlobName | analytics/sql_to_adls_bis.py:153 | the prefix without its trailing `/`, one `/`, the table and `.parquet` |
| SqlToAdlsBis.BlobNameTrailingSlashes | analytics/sql_to_adls_bis.py:153 | any number of trailing `/` on the prefix gives the same blob name |
| SqlToAdlsBis.BlobNameInjective | analytics/sql_to_adls_bis.py:153 | two tables never share a blob name under the same prefix |
| SqlToAdlsBis.DefaultBlobName | analytics/sql_to_adls_bis.py:153 | with the default prefix, a table goes to `sql-bis/<table>.parquet` |
| SqlToAdlsBis.UploadTablesOrder | analytics/sql_to_adls_bis.py:151-154 | the k-th upload is the frame read for the k-th table, sent to the container under its blob name |
| SqlToAdlsBis.UploadTablesFirstFailure | analytics/sql_to_adls_bis.py:151-154 | a failed run stops at the first raising table: a failed query names the table after the uploads with the reader's error, a failed upload the table of the last upload with the uploader's error, and every earlier upload succeeded |
| SqlToAdlsBis.StoppedHere | analytics/sql_to_adls_bis.py:151-154 | a first table whose query or upload raises ends the run there |
| SqlToAdlsBis.StoppedAfterSuccess | analytics/sql_to_adls_bis.py:151-154 | a first table read and uploaded without error leaves the failure, with its table and cause, to the rest of the tables |
| SqlToAdlsBis.UploadTables | analytics/sql_to_adls_bis.py:151-154 | at most one upload per table, every one to the chosen container, one per table when nothing fails, and an upload failure comes after at least one attempted upload |
| SqlToAdlsBis.UploadAll | analytics/sql_to_adls_bis.py:151-155 | the loop performs the uploads, and stops at the error, that `UploadTables` specifies |
| SqlToAdlsBis.UploadsNeedConfiguration | analytics/sql_to_adls_bis.py:135-154 | nothing is uploaded unless every SQL parameter and the ADLS string are truthy and the connection test succeeded |
| SqlToAdlsBis.RunMain | analytics/sql_to_adls_bis.py:135-155 | a missing parameter ends the run with its error before any upload; a failed connection test ends it before any upload |
| SqlToAdlsBis.DefaultRun | analytics/sql_to_adls_bis.py:135-155 | with no options, a successful run uploads the 13 default tables to `raw` under `sql-bis/` |
| UrlQuote.Utf8 | analytics/sql_to_adls_bis.py:96 | one to four bytes per character, one byte exactly for ASCII |
| UrlQuote.PercentByte | analytics/sql_to_adls_bis.py:96 | `%XY` whose two hexadecimal digits read back as the byte |
| UrlQuote.QuoteChar | analytics/sql_to_adls_bis.py:96 | unreserved characters are kept as they are, anything else is escaped |
| UrlQuote.QuotePlus | analytics/sql_to_adls_bis.py:96 | the quoted text is at least as long and holds only unreserved characters, `+` and `%` |
| UrlQuote.QuotePlusRoundTrip | analytics/sql_to_adls_bis.py:96 | unquoting the quoted form of an ASCII string gives it back |
| UrlQuote.QuotedHasNoDelimiters | analytics/sql_to_adls_bis.py:96-105 | quoted text holds no `;`, `=`, `&`, braces or spaces |
| GenerateEnv.CleanValue | analytics/api/generate_env.py:19 | the value keeps no double quote at either end |
| GenerateEnv.ParseTfvarsLine | analytics/api/generate_env.py:15-17 | a line is skipped exactly when, stripped, it is empty, starts with `#` or has no `=` |
| GenerateEnv.ParseTfvarsLineShape | analytics/api/generate_env.py:18-19 | a recorded key has no `=` and no surrounding blanks, and its value no surrounding double quote |
| GenerateEnv.ParseAssignment | analytics/api/generate_env.py:14-19 | a line `key = "value"` with any blanks around its parts records exactly that key and value |
| GenerateEnv.DefaultsMeaning | analytics/api/generate_env.py:21-31 | each `AZURE_SQL_*` default is present exactly when its tfvars value is non-empty, the server with `.database.windows.net` appended; no other key; no empty value |
| GenerateEnv.GuessSqlDefaults | analytics/api/generate_env.py:7-31 | no file gives no defaults; otherwise the defaults derived from the parsed lines |
| GenerateEnv.CopyValue | analytics/api/generate_env.py:25-30 | one `if values.get(key)` step: the default is set only when the key has a non-empty value |
| GenerateEnv.SqlLineReadsBack | analytics/api/generate_env.py:43-46 | each SQL line reads back, at its first `=`, as its key and the tfvars default or the fallback |
| GenerateEnv.EnvLines | analytics/api/generate_env.py:41-57 | nine lines: the header, the four SQL lines, then the fixed ones |
| GenerateEnv.WriteEnvFile | analytics/api/generate_env.py:34-60 | an existing `.env` is left alone; otherwise the lines are written joined and newline-terminated |
| GenerateEnv.EnvText | analytics/api/generate_env.py:59 | the text is the lines joined by newlines with a final newline, so every line, the last included, ends with a newline |
| GenerateEnv.EnvValues | analytics/api/generate_env.py:22-46 | each value written is the tfvars value when non-empty, the server with its suffix, and the fixed fallback otherwise |
| ApiConfig.StrippedItemsClean | analytics/api/app/config.py:32-35 | every kept table name is non-empty with no blank at either end |
| ApiConfig.StrippedItemsConcat | analytics/api/app/config.py:32-35 | the comprehension keeps the order of the items |
| ApiConfig.StrippedItemsKeeps | analytics/api/app/config.py:32-35 | already clean names pass through unchanged |
| ApiConfig.SplitTables | analytics/api/app/config.py:27-36 | `None` and unsupported values give `None`; a string or a list gives its clean non-empty names |
| ApiConfig.SplitTablesRoundTrip | analytics/api/app/config.py:32-33 | a comma-joined list of clean names reads back as the same list |
| ApiConfig.SplitTablesIdempotent | analytics/api/app/config.py:27-36 | validating a validated list changes nothing |
| ApiConfig.Field | analytics/api/app/config.py:12-20 | a variable set to the empty string counts as absent |
| ApiConfig.LoadSettings | analytics/api/app/config.py:11-25 | settings are built exactly when server, database, username and password are set and non-empty; otherwise the missing fields are listed |
| ApiConfig.SettingsDefaults | analytics/api/app/config.py:21-25 | left unset, schema `dbo`, driver ODBC Driver 18, port 1433, chunk size 100 and no table list |
| ApiConfig.SqlalchemyDsn | analytics/api/app/config.py:38-44 | every setting, the port as the same integer, is read back from the DSN |
| ApiConfig.AllowedTablesSet | analytics/api/app/config.py:46-50 | no restriction for a missing or empty list, otherwise exactly the listed tables |
| ApiConfig.BlankListAllowsAll | analytics/api/app/config.py:27-50 | a list made only of blanks and commas lifts every restriction |
| ApiConfig.AllowedTablesClean | analytics/api/app/config.py:33-50 | every allowed table is a non-empty name with no surrounding blanks |
| Common.GetEnvOr | analytics/export_to_sql.py:38 | `os.getenv(key, default)`: the variable when set, even empty, else the default |
| Common.Or | analytics/data_loader.py:129 | `a or b`: `a` when truthy, `b` otherwise |
| Common.FirstTruthy | analytics/data_loader.py:129-135 | the first truthy candidate, with every earlier one falsy; none when all are falsy |
| Common.Strip | analytics/api/generate_env.py:15 | `str.strip()` leaves no whitespace at either end |
| Common.StripByIdempotent | analytics/api/app/config.py:33 | stripping twice is stripping once |
| Common.StripByPadded | analytics/api/generate_env.py:15-19 | stripping padding around a core gives the core back |
| Common.Split | analytics/api/app/config.py:33 | `str.split(sep)`: at least one piece, none holding the separator, joining back to the text |
| Common.SplitJoin | analytics/api/app/config.py:33 | splitting a joined list gives the list back |
| Common.IntRoundTrip | analytics/api/app/config.py:43 | the decimal text of an integer reads back as that integer |
| Common.Dedup | analytics/export_to_sql.py:131 | `dict.fromkeys`: the same elements without duplicates, the first one first |
| Common.DedupSnoc | analytics/export_to_sql.py:131 | `dict.fromkeys` element by element: nothing from nothing, and an element is appended after the earlier ones exactly when it is new, so each stays at its first occurrence |
| Common.DedupSeenSnoc | analytics/export_to_sql.py:131 | the same with a set of keys already seen: an element is appended exactly when it is neither seen nor earlier in the list |
| Common.DedupSeenDistinct | analytics/export_to_sql.py:131 | a list without duplicates is kept in order |
| Common.CollectPairsKeys | analytics/export_to_sql.py:98-103 | a key is recorded exactly when some line assigns it |
| Common.CollectPairsLastWins | analytics/export_to_sql.py:98-103 | the value recorded for a key is that of its last assignment |
| Common.ReadAssignments | analytics/api/generate_env.py:13-19 | the loop over the lines records what `CollectPairs` specifies |
| Common.MissingAmong | analytics/sql_to_adls_bis.py:139-141 | the names of exactly the falsy fields |
| Common.MissingAmongConcat | analytics/sql_to_adls_bis.py:139-141 | the missing names keep the order of the fields |

## Left out

- Command-line parsing with `argparse`: each script's options are given as `Option` values, and the modelled defaults are the ones `argparse` would fill in.
- HTTP sessions, headers such as the scraper's `User-Agent`, timeouts and `raise_for_status`: a request is a value and its outcome comes from an oracle.
- Azure SDK clients: `BlobServiceClient`, `get_container_client`, the `create_container` call in `upload_json_to_datalake`, and the upload itself. Listing, downloading and uploading are oracles, and uploads are recorded as a sequence of calls.
- `fetch_communes.py` `main` is modelled only up to the GETs it sends. Not modelled: the check for a connection string, the early return when there are no records, the payload envelope (which needs the clock for `generated_at` and for the default timestamped blob path), the upload and the local copy.
- pandas internals: dtypes, NaN versus `None`, and float formatting. A data frame is a list of named columns of JSON values, or an abstract type when the script only passes it through.
- DataLoader.JsonFiles: `pd.json_normalize` is an oracle that never fails on a dictionary or a list. Only its rejection of every other type is modelled, as the `NotNormalizable` error.
- `data_loader.py`: `read_csv`, `to_parquet`, the printing done by the `list` and `fetch` commands, and the handling of `ServiceRequestError` are not modelled.
- ScrapeTaux.DecimalText: only the comma-to-point replacement is modelled. `float(...)` parsing and `round(..., 2)` are left out, so rates stay decimal strings.
- `scrape_taux.py`: sorting and Excel writing in `save_to_excel`, and the SMTP session itself. The decision to send, and the choice of password, are modelled.
- `export_to_sql.py`: `prepare_tables` and `tables_summary` live in a module that is not part of this model. The preview output, `engine.dispose()` and the progress messages are not modelled either.
- `sql_to_adls_bis.py`: Parquet serialisation of the table, `engine.dispose()` and the progress messages are not modelled.
- UrlQuote.QuotePlusRoundTrip: the round trip is proved for ASCII strings only. UrlQuote.UnquotePlus does not decode percent-escaped multi-byte UTF-8 sequences.
- `generate_env.py`: `Path.exists` is a boolean parameter and `splitlines` is taken as already done. The printed messages are not modelled.
- `config.py`: pydantic-settings decodes list-typed variables as JSON before the validator runs. The model gives `ALLOWED_TABLES` as the raw value the validator receives. Conversion of `AZURE_SQL_PORT` and `AZURE_SQL_CHUNKSIZE` (the `azure_sql_port` and `azure_sql_chunksize` fields) to `int` is an `Option<int>`, and a failed conversion is not modelled.
- `config.py`: `Settings` reads the process environment merged with the `analytics/api/.env` file. The `env` map of `ApiConfig` stands for that merged view, and the file reading and the merge are not modelled. Environment names are matched exactly, not case-insensitively. `str(item)` on list items is not modelled, since items are given as strings. The module-level `settings` instance is not modelled.
- Warnings printed when a legacy environment variable is used, and every other `print`, are not modelled.
