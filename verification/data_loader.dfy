/** `analytics/data_loader.py`: which connection string reaches the Data Lake
    client, which blobs are listed and downloaded, and under which local
    names the downloaded datasets are saved. The blob listing and the two
    downloads are function-typed oracles; a data frame is an abstract type. */
module DataLoader {
  import opened Common
  import opened Json

  // ---------------------------------------------------------------------------
  // Connection string

  const EnvConnectionString: string := "ADLS_CONNECTION_STRING"
  const LegacyEnvVars: seq<string> := ["AZURE_STORAGE_CONNECTION_STRING", "AZURE_DATALAKE_CONNECTION_STRING"]

  /** `MissingConnectionString`, naming the variable the user should set, or
      the exception raised while downloading or parsing a blob. */
  datatype LoaderError =
    | MissingConnectionString(variable: string)
    | LoadFailed(kind: Kind, name: string, cause: string)

  /** Where a connection string may come from, in order of precedence: the
      `--connection-string` option, the primary variable, then the legacy
      variables in their listed order. */
  function ConnectionSources(explicit: Option<string>, env: Env): (r: seq<Option<string>>)
    ensures |r| == 2 + |LegacyEnvVars|
  {
    [explicit, GetEnv(env, EnvConnectionString)] + seq(|LegacyEnvVars|, i requires 0 <= i < |LegacyEnvVars| => GetEnv(env, LegacyEnvVars[i]))
  }

  /** The connection string the loader uses: the first non-empty source, or
      `MissingConnectionString` when every source is absent or empty. */
  function ConnectionString(explicit: Option<string>, env: Env): (r: Result<string, LoaderError>)
    ensures Truthy(explicit) ==> r == Ok(explicit.value)
    ensures !Truthy(explicit) && Truthy(GetEnv(env, EnvConnectionString)) ==> r == Ok(env[EnvConnectionString])
    ensures (!Truthy(explicit) && !Truthy(GetEnv(env, EnvConnectionString))
             && Truthy(GetEnv(env, LegacyEnvVars[0]))) ==> r == Ok(env[LegacyEnvVars[0]])
    ensures (!Truthy(explicit) && !Truthy(GetEnv(env, EnvConnectionString))
             && !Truthy(GetEnv(env, LegacyEnvVars[0])) && Truthy(GetEnv(env, LegacyEnvVars[1]))) ==> r == Ok(env[LegacyEnvVars[1]])
    ensures r.Err? <==> !Truthy(explicit) && !Truthy(GetEnv(env, EnvConnectionString))
                        && !Truthy(GetEnv(env, LegacyEnvVars[0])) && !Truthy(GetEnv(env, LegacyEnvVars[1]))
    ensures r.Err? ==> r.error == MissingConnectionString(EnvConnectionString)
  {
    var sources := ConnectionSources(explicit, env);
    assert sources[0] == explicit && sources[1] == GetEnv(env, EnvConnectionString);
    assert sources[2] == GetEnv(env, LegacyEnvVars[0]) && sources[3] == GetEnv(env, LegacyEnvVars[1]);
    match FirstTruthy(sources)
    case Some(i) => Ok(sources[i].value)
    case None => Err(MissingConnectionString(EnvConnectionString))
  }

  /** `resolve_connection_string`: `explicit or getenv(primary)`, then the
      legacy variables one after the other until one is non-empty. */
  method ResolveConnectionString(explicit: Option<string>, env: Env) returns (r: Result<string, LoaderError>)
    ensures r == ConnectionString(explicit, env)
  {
    var connection := Or(explicit, GetEnv(env, EnvConnectionString));
    if !Truthy(connection) {
      var i := 0;
      while i < |LegacyEnvVars|
        invariant 0 <= i <= |LegacyEnvVars|
        invariant forall j :: 0 <= j < i ==> !Truthy(GetEnv(env, LegacyEnvVars[j]))
        invariant !Truthy(connection)
      {
        connection := GetEnv(env, LegacyEnvVars[i]);
        if Truthy(connection) {
          break;
        }
        i := i + 1;
      }
    }
    if !Truthy(connection) {
      return Err(MissingConnectionString(EnvConnectionString));
    }
    return Ok(connection.value);
  }

  // ---------------------------------------------------------------------------
  // Listing and downloading

  /** `names[:limit]` when `limit` is truthy, with Python's reading of a
      negative bound as counting from the end; all names otherwise. */
  function Limit(names: seq<string>, limit: Option<int>): (r: seq<string>)
    ensures r <= names
    ensures limit.None? || limit.value == 0 ==> r == names
    ensures limit.Some? && limit.value > 0 ==> |r| == if limit.value < |names| then limit.value else |names|
    ensures limit.Some? && limit.value < 0 ==> |r| == if |names| + limit.value > 0 then |names| + limit.value else 0
  {
    if limit.None? || limit.value == 0 then names
    else if limit.value > 0 then names[..if limit.value < |names| then limit.value else |names|]
    else names[..if |names| + limit.value > 0 then |names| + limit.value else 0]
  }

  /** The kind of a blob: read as CSV into a data frame or as JSON. */
  datatype Kind = Csv | JsonKind

  /** What the loader asks of the container, in order. */
  datatype BlobCall = ListBlobs(prefix: string) | Download(kind: Kind, name: string)

  /** `FetchResult`: the CSV data frames and the JSON payloads, each paired
      with its blob name. */
  datatype FetchResult<D> = FetchResult(csvDatasets: seq<(string, D)>, jsonPayloads: seq<(string, Value)>)

  /** `load_csv` or `load_json`: `download_blob().readall()` followed by
      `pd.read_csv` or `json.loads`. It gives the dataset, or the text of the
      exception the download or the parsing raised. */
  type Loader<T> = string -> Result<T, string>

  /** The names fetched for one kind: none when the prefix is falsy,
      otherwise the listing under the prefix cut to the limit. */
  function Selected(list: string -> seq<string>, prefix: Option<string>, limit: Option<int>): (r: seq<string>)
    ensures !Truthy(prefix) ==> r == []
    ensures Truthy(prefix) ==> r <= list(prefix.value)
  {
    if Truthy(prefix) then Limit(list(prefix.value), limit) else []
  }

  /** Whether loading a blob raises. */
  function Fails<T>(load: Loader<T>): string -> bool {
    n => load(n).Err?
  }

  /** Each name with the dataset loaded for it, in order. */
  function Loaded<T>(names: seq<string>, load: Loader<T>): (r: seq<(string, T)>)
    requires forall i :: 0 <= i < |names| ==> load(names[i]).Ok?
    ensures |r| == |names|
  {
    seq(|names|, i requires 0 <= i < |names| && load(names[i]).Ok? => (names[i], load(names[i]).value))
  }

  /** One pass of `fetch_datasets` over the selected names of one kind: every
      dataset, in order, or the exception of the first blob that fails to
      load, which aborts `fetch_datasets`. */
  function LoadPass<T>(kind: Kind, names: seq<string>, load: Loader<T>): (r: Result<seq<(string, T)>, LoaderError>)
    ensures r.Ok? <==> forall i :: 0 <= i < |names| ==> load(names[i]).Ok?
    ensures r.Ok? ==>
              && |r.value| == |names|
              && forall i :: 0 <= i < |names| ==> r.value[i] == (names[i], load(names[i]).value)
    ensures r.Err? ==>
              && r.error.LoadFailed? && r.error.kind == kind
              && r.error.name in names && load(r.error.name) == Err(r.error.cause)
  {
    match FirstIndex(names, Fails(load))
    case Some(k) => Err(LoadFailed(kind, names[k], load(names[k]).error))
    case None => Ok(Loaded(names, load))
  }

  /** The names whose blobs a pass downloads: up to and including the first
      that fails to load, or all of them. */
  function Attempted<T>(names: seq<string>, load: Loader<T>): (r: seq<string>)
  {
    match FirstIndex(names, Fails(load))
    case Some(k) => names[..k + 1]
    case None => names
  }

  function Downloads(kind: Kind, names: seq<string>): (r: seq<BlobCall>)
    ensures |r| == |names|
  {
    seq(|names|, i requires 0 <= i < |names| => Download(kind, names[i]))
  }

  /** The calls made for one kind: the listing, then the downloads; nothing
      when the prefix is falsy. */
  function KindCalls(kind: Kind, prefix: Option<string>, downloaded: seq<string>): seq<BlobCall> {
    if Truthy(prefix) then [ListBlobs(prefix.value)] + Downloads(kind, downloaded) else []
  }

  /** `fetch_datasets` as a whole: the CSV pass, then the JSON pass, each
      only when its prefix is truthy. A blob that fails to load ends the run
      with its exception, after the calls made up to and including its
      download. */
  function FetchRun<D>(list: string -> seq<string>, loadCsv: Loader<D>, loadJson: Loader<Value>,
                       csvPrefix: Option<string>, jsonPrefix: Option<string>, limit: Option<int>)
    : (Result<FetchResult<D>, LoaderError>, seq<BlobCall>)
  {
    var csvNames := Selected(list, csvPrefix, limit);
    var csvCalls := KindCalls(Csv, csvPrefix, Attempted(csvNames, loadCsv));
    match LoadPass(Csv, csvNames, loadCsv)
    case Err(e) => (Err(e), csvCalls)
    case Ok(csv) =>
      var jsonNames := Selected(list, jsonPrefix, limit);
      var calls := csvCalls + KindCalls(JsonKind, jsonPrefix, Attempted(jsonNames, loadJson));
      match LoadPass(JsonKind, jsonNames, loadJson)
      case Err(e) => (Err(e), calls)
      case Ok(json) => (Ok(FetchResult(csv, json)), calls)
  }

  /** `fetch_datasets`: the CSV pass, then the JSON pass. */
  method FetchDatasets<D>(list: string -> seq<string>, loadCsv: Loader<D>, loadJson: Loader<Value>,
                          csvPrefix: Option<string>, jsonPrefix: Option<string>, limit: Option<int>)
    returns (result: Result<FetchResult<D>, LoaderError>, calls: seq<BlobCall>)
    ensures (result, calls) == FetchRun(list, loadCsv, loadJson, csvPrefix, jsonPrefix, limit)
  {
    ghost var csvNames, jsonNames := Selected(list, csvPrefix, limit), Selected(list, jsonPrefix, limit);
    var csvCalls: seq<BlobCall> := [];
    var csvResults: seq<(string, D)> := [];
    if Truthy(csvPrefix) {
      var names := list(csvPrefix.value);
      csvCalls := [ListBlobs(csvPrefix.value)];
      names := Limit(names, limit);
      var r, downloads := LoadNames(Csv, names, loadCsv);
      csvCalls := csvCalls + downloads;
      if r.Err? {
        result, calls := Err(r.error), csvCalls;
        return;
      }
      csvResults := r.value;
    } else {
      AllLoad(Csv, csvNames, loadCsv);
    }
    assert LoadPass(Csv, csvNames, loadCsv) == Ok(csvResults);
    assert csvCalls == KindCalls(Csv, csvPrefix, Attempted(csvNames, loadCsv));
    var jsonCalls: seq<BlobCall> := [];
    var jsonResults: seq<(string, Value)> := [];
    if Truthy(jsonPrefix) {
      var names := list(jsonPrefix.value);
      jsonCalls := [ListBlobs(jsonPrefix.value)];
      names := Limit(names, limit);
      var r, downloads := LoadNames(JsonKind, names, loadJson);
      jsonCalls := jsonCalls + downloads;
      if r.Err? {
        result, calls := Err(r.error), csvCalls + jsonCalls;
        return;
      }
      jsonResults := r.value;
    } else {
      AllLoad(JsonKind, jsonNames, loadJson);
    }
    assert LoadPass(JsonKind, jsonNames, loadJson) == Ok(jsonResults);
    calls := csvCalls + jsonCalls;
    result := Ok(FetchResult(csvResults, jsonResults));
  }

  /** The loop of one pass: download and parse each name in turn; the first
      exception leaves the loop. */
  method LoadNames<T>(kind: Kind, names: seq<string>, load: Loader<T>)
    returns (r: Result<seq<(string, T)>, LoaderError>, downloads: seq<BlobCall>)
    ensures r == LoadPass(kind, names, load)
    ensures downloads == Downloads(kind, Attempted(names, load))
  {
    var results: seq<(string, T)> := [];
    downloads := [];
    var i := 0;
    while i < |names|
      invariant 0 <= i <= |names|
      invariant forall j :: 0 <= j < i ==> load(names[j]).Ok?
      invariant |results| == i && forall j :: 0 <= j < i ==> results[j] == (names[j], load(names[j]).value)
      invariant downloads == Downloads(kind, names[..i])
    {
      SnocSlice(names, i);
      downloads := downloads + [Download(kind, names[i])];
      assert downloads == Downloads(kind, names[..i + 1]);
      match load(names[i]) {
        case Err(e) =>
          FailsHere(kind, names, load, i);
          r := Err(LoadFailed(kind, names[i], e));
          return;
        case Ok(d) =>
          results := results + [(names[i], d)];
      }
      i := i + 1;
    }
    AllLoad(kind, names, load);
    assert names[..i] == names;
    assert results == Loaded(names, load);
    r := Ok(results);
  }

  /** A blob that fails to load after blobs that loaded ends the pass with
      its exception, its download being the last. */
  lemma FailsHere<T>(kind: Kind, names: seq<string>, load: Loader<T>, i: nat)
    requires i < |names| && load(names[i]).Err?
    requires forall j :: 0 <= j < i ==> load(names[j]).Ok?
    ensures LoadPass(kind, names, load) == Err(LoadFailed(kind, names[i], load(names[i]).error))
    ensures Attempted(names, load) == names[..i + 1]
  {
    assert FirstIndex(names, Fails(load)) == Some(i);
  }

  /** When every blob loads, the pass downloads them all. */
  lemma AllLoad<T>(kind: Kind, names: seq<string>, load: Loader<T>)
    requires forall j :: 0 <= j < |names| ==> load(names[j]).Ok?
    ensures LoadPass(kind, names, load).Ok?
    ensures Attempted(names, load) == names
  {
    assert FirstIndex(names, Fails(load)).None?;
  }

  /** A failed pass downloads a prefix of the names that ends at the failing
      blob; every blob before it loaded. */
  lemma LoadStopsAtFirst<T>(kind: Kind, names: seq<string>, load: Loader<T>)
    requires LoadPass(kind, names, load).Err?
    ensures var a := Attempted(names, load);
            && a != [] && a <= names
            && a[|a| - 1] == LoadPass(kind, names, load).error.name
            && forall j :: 0 <= j < |a| - 1 ==> load(a[j]).Ok?
  {
  }

  /** The names of a list of pairs. */
  function NamesOf<T>(pairs: seq<(string, T)>): seq<string> {
    seq(|pairs|, i requires 0 <= i < |pairs| => pairs[i].0)
  }

  /** Every fetched dataset is paired with its own name, and the names are
      the selected ones in listing order. */
  lemma FetchedNames<T>(kind: Kind, names: seq<string>, load: Loader<T>)
    requires LoadPass(kind, names, load).Ok?
    ensures NamesOf(LoadPass(kind, names, load).value) == names
  {
  }

  /** A run in which every selected blob loads lists each truthy prefix once,
      downloads every selected blob (the CSV ones first) and returns them all. */
  lemma FetchAllLoaded<D>(list: string -> seq<string>, loadCsv: Loader<D>, loadJson: Loader<Value>,
                          csvPrefix: Option<string>, jsonPrefix: Option<string>, limit: Option<int>)
    requires FetchRun(list, loadCsv, loadJson, csvPrefix, jsonPrefix, limit).0.Ok?
    ensures var (r, calls) := FetchRun(list, loadCsv, loadJson, csvPrefix, jsonPrefix, limit);
            var csvNames, jsonNames := Selected(list, csvPrefix, limit), Selected(list, jsonPrefix, limit);
            && calls == KindCalls(Csv, csvPrefix, csvNames) + KindCalls(JsonKind, jsonPrefix, jsonNames)
            && NamesOf(r.value.csvDatasets) == csvNames
            && NamesOf(r.value.jsonPayloads) == jsonNames
  {
    var csvNames, jsonNames := Selected(list, csvPrefix, limit), Selected(list, jsonPrefix, limit);
    AllLoad(Csv, csvNames, loadCsv);
    AllLoad(JsonKind, jsonNames, loadJson);
  }

  /** A blob that fails to load aborts the run right after its download: the
      last call made is that download, and a failure in the CSV pass leaves
      the JSON prefix unlisted. */
  lemma FetchStopsAtFailure<D>(list: string -> seq<string>, loadCsv: Loader<D>, loadJson: Loader<Value>,
                               csvPrefix: Option<string>, jsonPrefix: Option<string>, limit: Option<int>)
    requires FetchRun(list, loadCsv, loadJson, csvPrefix, jsonPrefix, limit).0.Err?
    ensures var (r, calls) := FetchRun(list, loadCsv, loadJson, csvPrefix, jsonPrefix, limit);
            && r.error.LoadFailed?
            && calls != [] && calls[|calls| - 1] == Download(r.error.kind, r.error.name)
            && (r.error.kind == Csv ==> forall k :: 1 <= k < |calls| ==> calls[k] == Download(Csv, calls[k].name))
  {
    var csvNames := Selected(list, csvPrefix, limit);
    if LoadPass(Csv, csvNames, loadCsv).Err? {
      LoadStopsAtFirst(Csv, csvNames, loadCsv);
    } else {
      var jsonNames := Selected(list, jsonPrefix, limit);
      LoadStopsAtFirst(JsonKind, jsonNames, loadJson);
    }
  }

  // ---------------------------------------------------------------------------
  // Local names

  /** The local file stem of a blob: every `/` becomes `__`. */
  function FlatName(blob: string): (r: string)
    ensures '/' !in r
  {
    ReplaceChar(blob, '/', "__")
  }

  /** The reverse reading of a local stem: `__` back to `/`, left to right. */
  function UnflatName(s: string): string
    decreases |s|
  {
    if s == [] then []
    else if |s| >= 2 && s[0] == '_' && s[1] == '_' then "/" + UnflatName(s[2..])
    else [s[0]] + UnflatName(s[1..])
  }

  /** A blob name without `_` is recovered from its local stem. */
  lemma {:induction false} FlatNameRoundTrip(blob: string)
    requires '_' !in blob
    ensures UnflatName(FlatName(blob)) == blob
    decreases |blob|
  {
    if blob != [] {
      var tail := FlatName(blob[1..]);
      assert FlatName(blob) == (if blob[0] == '/' then "__" else [blob[0]]) + tail;
      FlatNameRoundTrip(blob[1..]);
      if blob[0] == '/' {
        assert ("__" + tail)[2..] == tail;
      } else {
        assert ([blob[0]] + tail)[1..] == tail;
      }
    }
  }

  /** Blobs `a/b` and `a__b` are saved under the same local name, so the
      second overwrites the first. */
  lemma FlatNameCollision(a: string, b: string)
    ensures FlatName(a + "/" + b) == FlatName(a + "__" + b)
  {
    var ra, rb := ReplaceChar(a, '/', "__"), ReplaceChar(b, '/', "__");
    assert FlatName(a + "/" + b) == ra + "__" + rb by {
      assert ReplaceChar("/", '/', "__") == "__" + ReplaceChar([], '/', "__");
      ReplaceCharAppend(a, "/", '/', "__");
      ReplaceCharAppend(a + "/", b, '/', "__");
    }
    assert FlatName(a + "__" + b) == ra + "__" + rb by {
      ReplaceCharAbsent("__", '/', "__");
      ReplaceCharAppend(a, "__", '/', "__");
      ReplaceCharAppend(a + "__", b, '/', "__");
    }
  }

  const ParquetSuffix: string := ".parquet"
  const JsonSuffix: string := ".json"

  /** The local file name of a blob, with the suffix of the saved format. */
  function LocalFileName(blob: string, suffix: string): (r: string)
    ensures r == FlatName(blob) + suffix
    ensures '/' !in suffix ==> '/' !in r
  {
    FlatName(blob) + suffix
  }

  // ---------------------------------------------------------------------------
  // Saving

  /** `s` occurs in `t` as a contiguous substring (Python `s in t` on strings). */
  predicate Occurs(s: string, t: string)
    decreases |t|
  {
    (|s| <= |t| && t[..|s|] == s) || (t != [] && Occurs(s, t[1..]))
  }

  const CommunesKey: string := "communes"

  /** Why a JSON payload cannot be converted: the `communes` subscript
      raises `TypeError`, or `pd.json_normalize` raises `NotImplementedError`
      for a value that is neither a dictionary nor a list. */
  datatype SaveError = NotSubscriptable(blob: string) | NotNormalizable(blob: string)

  /** `pd.json_normalize` accepts a dictionary or a list. */
  predicate Normalizable(v: Value) {
    v.Obj? || v.Arr?
  }

  /** The error converting one payload raises, if any. */
  function ConversionError(blob: string, payload: Value): (r: Option<SaveError>)
    ensures r.None? <==> ConversionSource(payload).Some? && Normalizable(ConversionSource(payload).value)
    ensures r == Some(NotSubscriptable(blob)) <==> ConversionSource(payload).None?
    ensures r == Some(NotNormalizable(blob)) <==> ConversionSource(payload).Some? && !Normalizable(ConversionSource(payload).value)
  {
    match ConversionSource(payload)
    case None => Some(NotSubscriptable(blob))
    case Some(v) => if Normalizable(v) then None else Some(NotNormalizable(blob))
  }

  /** What `pd.json_normalize` receives for a payload: `payload["communes"]`
      when the key is there, the whole payload otherwise. The membership test
      and the subscript follow the payload's type: a list or a string that
      contains `"communes"` cannot be subscripted by it, and a scalar does
      not support `in` at all. */
  function ConversionSource(payload: Value): (r: Option<Value>)
    ensures payload.Obj? ==> r.Some?
    ensures HasKey(payload, CommunesKey) ==> r == Get(payload, CommunesKey)
    ensures payload.Obj? && !HasKey(payload, CommunesKey) ==> r == Some(payload)
    ensures payload.Null? || payload.Bool? || payload.Num? ==> r.None?
  {
    match payload
    case Obj(_) => if HasKey(payload, CommunesKey) then Get(payload, CommunesKey) else Some(payload)
    case Arr(items) => if Str(CommunesKey) in items then None else Some(payload)
    case Str(s) => if Occurs(CommunesKey, s) then None else Some(payload)
    case _ => None
  }

  /** A file written by `save_results`: a Parquet data frame or the raw JSON text. */
  datatype SavedFile<D> = ParquetFile(name: string, frame: D) | JsonFile(name: string, payload: Value)

  /** The files written for the JSON payloads, stopping at the first payload
      that cannot be converted. `normalize` stands for `pd.json_normalize` on
      the dictionaries and lists it accepts. */
  function JsonFiles<D>(payloads: seq<(string, Value)>, convert: bool, normalize: Value -> D): (r: (seq<SavedFile<D>>, Option<SaveError>))
    ensures |r.0| <= |payloads|
    ensures r.1.None? ==> |r.0| == |payloads|
    ensures !convert ==> r.1.None?
    ensures r.1.Some? ==> && |r.0| < |payloads|
                          && r.1 == ConversionError(payloads[|r.0|].0, payloads[|r.0|].1)
    decreases |payloads|
  {
    if payloads == [] then ([], None)
    else
      var (blob, payload) := payloads[0];
      var rest := JsonFiles(payloads[1..], convert, normalize);
      if !convert then ([JsonFile(LocalFileName(blob, JsonSuffix), payload)] + rest.0, rest.1)
      else match ConversionError(blob, payload)
        case Some(e) => ([], Some(e))
        case None => ([ParquetFile(LocalFileName(blob, ParquetSuffix), normalize(ConversionSource(payload).value))] + rest.0, rest.1)
  }

  /** `save_results`: every CSV data frame as Parquet, then every JSON payload
      either converted to Parquet or kept as JSON text. */
  function SavePlan<D>(results: FetchResult<D>, convert: bool, normalize: Value -> D): (r: (seq<SavedFile<D>>, Option<SaveError>))
    ensures var csv := |results.csvDatasets|;
            csv <= |r.0| && r.0[..csv] == CsvFiles(results.csvDatasets)
    ensures r.1.None? ==> |r.0| == |results.csvDatasets| + |results.jsonPayloads|
    ensures r.1.Some? ==>
              var k := |r.0| - |results.csvDatasets|;
              && convert && k < |results.jsonPayloads|
              && r.1 == ConversionError(results.jsonPayloads[k].0, results.jsonPayloads[k].1)
  {
    var json := JsonFiles(results.jsonPayloads, convert, normalize);
    (CsvFiles(results.csvDatasets) + json.0, json.1)
  }

  /** The Parquet files written for the CSV data frames, one per frame. */
  function CsvFiles<D>(datasets: seq<(string, D)>): (r: seq<SavedFile<D>>)
    ensures |r| == |datasets|
  {
    seq(|datasets|, i requires 0 <= i < |datasets| => ParquetFile(LocalFileName(datasets[i].0, ParquetSuffix), datasets[i].1))
  }

  /** Kept as JSON, every payload is written, each under its blob's name. */
  lemma {:induction false} KeepJsonWritesAll<D>(payloads: seq<(string, Value)>, normalize: Value -> D)
    ensures var (files, error) := JsonFiles(payloads, false, normalize);
            && error.None? && |files| == |payloads|
            && forall i :: 0 <= i < |payloads| ==>
                 files[i] == JsonFile(FlatName(payloads[i].0) + JsonSuffix, payloads[i].1)
    decreases |payloads|
  {
    if payloads != [] {
      KeepJsonWritesAll(payloads[1..], normalize);
    }
  }

  /** Converted, payloads that are objects whose `communes` entry, or the
      object itself without one, is a dictionary or a list are always
      written; the one under `communes` is taken when present. */
  lemma {:induction false} ConvertObjects<D>(payloads: seq<(string, Value)>, normalize: Value -> D)
    requires forall i :: 0 <= i < |payloads| ==>
               payloads[i].1.Obj? && Normalizable(ConversionSource(payloads[i].1).value)
    ensures var (files, error) := JsonFiles(payloads, true, normalize);
            && error.None? && |files| == |payloads|
            && forall i :: 0 <= i < |payloads| ==>
                 files[i] == ParquetFile(FlatName(payloads[i].0) + ParquetSuffix,
                                         normalize(ConversionSource(payloads[i].1).value))
    decreases |payloads|
  {
    if payloads != [] {
      ConvertObjects(payloads[1..], normalize);
    }
  }

  /** Converted, the first payload that cannot be converted ends the run
      with its error, after one file for each payload before it. */
  lemma {:induction false} ConvertStopsAtFirst<D>(payloads: seq<(string, Value)>, normalize: Value -> D, k: nat)
    requires k < |payloads| && ConversionError(payloads[k].0, payloads[k].1).Some?
    requires forall i :: 0 <= i < k ==> ConversionError(payloads[i].0, payloads[i].1).None?
    ensures var (files, error) := JsonFiles(payloads, true, normalize);
            && error == ConversionError(payloads[k].0, payloads[k].1) && |files| == k
    decreases k
  {
    if k > 0 {
      assert forall i :: 0 <= i < k - 1 ==> payloads[1..][i] == payloads[i + 1];
      ConvertStopsAtFirst(payloads[1..], normalize, k - 1);
    }
  }

  /** `save_results` as it runs: the loops write one file at a time. */
  method SaveResults<D>(results: FetchResult<D>, convert: bool, normalize: Value -> D)
    returns (files: seq<SavedFile<D>>, error: Option<SaveError>)
    ensures (files, error) == SavePlan(results, convert, normalize)
  {
    files := [];
    var i := 0;
    while i < |results.csvDatasets|
      invariant 0 <= i <= |results.csvDatasets|
      invariant files == CsvFiles(results.csvDatasets[..i])
    {
      var (blob, frame) := results.csvDatasets[i];
      files := files + [ParquetFile(LocalFileName(blob, ParquetSuffix), frame)];
      i := i + 1;
    }
    assert results.csvDatasets[..i] == results.csvDatasets;
    var payloads := results.jsonPayloads;
    assert payloads[0..] == payloads;
    var k := 0;
    while k < |payloads|
      invariant 0 <= k <= |payloads|
      invariant var rest := JsonFiles(payloads[k..], convert, normalize);
                SavePlan(results, convert, normalize) == (files + rest.0, rest.1)
    {
      var (blob, payload) := payloads[k];
      assert payloads[k..][0] == payloads[k] && payloads[k..][1..] == payloads[k + 1..];
      var file;
      if convert {
        var failure := ConversionError(blob, payload);
        if failure.Some? {
          assert files + [] == files;
          return files, failure;
        }
        file := ParquetFile(LocalFileName(blob, ParquetSuffix), normalize(ConversionSource(payload).value));
      } else {
        file := JsonFile(LocalFileName(blob, JsonSuffix), payload);
      }
      AppendAssoc(files, [file], JsonFiles(payloads[k + 1..], convert, normalize).0);
      files := files + [file];
      k := k + 1;
    }
    assert files + [] == files;
    error := None;
  }
}
