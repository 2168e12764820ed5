/** `analytics/sql_to_adls_bis.py`: copies tables of the second SQL database
    to the data lake, one Parquet blob per table. The options fall back on
    environment variables, the connection goes through an ODBC string
    embedded in a SQLAlchemy URL, and every table is read with one query and
    written to one blob named after it. */
module SqlToAdlsBis {
  import opened Common
  import opened UrlQuote

  const DefaultTables: seq<string> := [
    "dim_commune",
    "bridge_commune_code_postal",
    "stg_population",
    "stg_creation_entreprises",
    "stg_creation_entrepreneurs_individuels",
    "stg_deces",
    "stg_ds_filosofi",
    "stg_emploi_chomage",
    "stg_fecondite",
    "stg_filosofi_age_tp_nivvie",
    "stg_logement",
    "stg_menage",
    "stg_naissances"
  ]

  const DefaultDatabase: string := "projet_data_eng_bis"
  const DefaultDriver: string := "ODBC Driver 18 for SQL Server"
  const DefaultSchema: string := "dbo"
  const DefaultContainer: string := "raw"
  const DefaultPrefix: string := "sql-bis/"
  /** `create_engine` is always called without a port, so its default applies. */
  const DefaultPort: string := "1433"

  // ---------------------------------------------------------------------------
  // Options and their environment defaults

  /** What was given on the command line; `None` for an option left out. */
  datatype CliArgs = CliArgs(
    server: Option<string>, database: Option<string>, username: Option<string>, password: Option<string>,
    driver: Option<string>, schema: Option<string>, tables: Option<seq<string>>,
    adls: Option<string>, container: Option<string>, prefix: Option<string>, limit: Option<int>)

  /** The parsed options. */
  datatype BisArgs = BisArgs(
    server: Option<string>, database: string, username: Option<string>, password: Option<string>,
    driver: string, schema: string, tables: seq<string>,
    adls: Option<string>, container: string, prefix: string, limit: Option<int>)

  /** The default of `--database`: `AZURE_SQL_DATABASE_BIS` when it is
      non-empty, otherwise `AZURE_SQL_DATABASE` when it is set (even to the
      empty string), otherwise the fixed name. */
  function DatabaseDefault(env: Env): (r: string)
    ensures Truthy(GetEnv(env, "AZURE_SQL_DATABASE_BIS")) ==> r == env["AZURE_SQL_DATABASE_BIS"]
    ensures !Truthy(GetEnv(env, "AZURE_SQL_DATABASE_BIS")) && "AZURE_SQL_DATABASE" in env ==> r == env["AZURE_SQL_DATABASE"]
    ensures !Truthy(GetEnv(env, "AZURE_SQL_DATABASE_BIS")) && "AZURE_SQL_DATABASE" !in env ==> r == DefaultDatabase
  {
    Or(GetEnv(env, "AZURE_SQL_DATABASE_BIS"), Some(GetEnvOr(env, "AZURE_SQL_DATABASE", DefaultDatabase))).value
  }

  /** The default of `--adls-connection-string`: `ADLS_CONNECTION_STRING`
      when it is non-empty, otherwise `AZURE_STORAGE_CONNECTION_STRING`. */
  function AdlsDefault(env: Env): (r: Option<string>)
    ensures Truthy(GetEnv(env, "ADLS_CONNECTION_STRING")) ==> r == Some(env["ADLS_CONNECTION_STRING"])
    ensures !Truthy(GetEnv(env, "ADLS_CONNECTION_STRING")) ==> r == GetEnv(env, "AZURE_STORAGE_CONNECTION_STRING")
    ensures Truthy(r) <==> Truthy(GetEnv(env, "ADLS_CONNECTION_STRING")) || Truthy(GetEnv(env, "AZURE_STORAGE_CONNECTION_STRING"))
  {
    Or(GetEnv(env, "ADLS_CONNECTION_STRING"), GetEnv(env, "AZURE_STORAGE_CONNECTION_STRING"))
  }

  function Given<T>(cli: Option<T>, default: T): (r: T)
    ensures cli.Some? ==> r == cli.value
    ensures cli.None? ==> r == default
  {
    if cli.Some? then cli.value else default
  }

  /** `parse_args()`: an option given on the command line wins over its
      variable and its default, even when it is the empty string; an option
      left out takes its default. */
  function ParseArgs(cli: CliArgs, env: Env): (r: BisArgs)
    ensures cli.server.Some? ==> r.server == cli.server
    ensures cli.database.Some? ==> r.database == cli.database.value
    ensures cli.username.Some? ==> r.username == cli.username
    ensures cli.password.Some? ==> r.password == cli.password
    ensures cli.adls.Some? ==> r.adls == cli.adls
    ensures cli.prefix.Some? ==> r.prefix == cli.prefix.value
    ensures cli.tables.Some? ==> r.tables == cli.tables.value
    ensures r.limit == cli.limit
  {
    BisArgs(
      if cli.server.Some? then cli.server else GetEnv(env, "AZURE_SQL_SERVER"),
      Given(cli.database, DatabaseDefault(env)),
      if cli.username.Some? then cli.username else GetEnv(env, "AZURE_SQL_USERNAME"),
      if cli.password.Some? then cli.password else GetEnv(env, "AZURE_SQL_PASSWORD"),
      Given(cli.driver, GetEnvOr(env, "AZURE_SQL_DRIVER", DefaultDriver)),
      Given(cli.schema, GetEnvOr(env, "AZURE_SQL_SCHEMA", DefaultSchema)),
      Given(cli.tables, DefaultTables),
      if cli.adls.Some? then cli.adls else AdlsDefault(env),
      Given(cli.container, DefaultContainer),
      Given(cli.prefix, DefaultPrefix),
      cli.limit)
  }

  /** Where each SQL option comes from when it is left out: its variable, and
      for the database the first of `AZURE_SQL_DATABASE_BIS` (when non-empty),
      `AZURE_SQL_DATABASE` (when set) and the fixed name. */
  lemma ParsedSqlDefaults(cli: CliArgs, env: Env)
    requires cli.server.None? && cli.database.None? && cli.username.None? && cli.password.None? && cli.driver.None? && cli.schema.None?
    ensures var r := ParseArgs(cli, env);
            && r.server == GetEnv(env, "AZURE_SQL_SERVER")
            && r.username == GetEnv(env, "AZURE_SQL_USERNAME")
            && r.password == GetEnv(env, "AZURE_SQL_PASSWORD")
            && r.driver == GetEnvOr(env, "AZURE_SQL_DRIVER", DefaultDriver)
            && r.schema == GetEnvOr(env, "AZURE_SQL_SCHEMA", DefaultSchema)
            && (Truthy(GetEnv(env, "AZURE_SQL_DATABASE_BIS")) ==> r.database == env["AZURE_SQL_DATABASE_BIS"])
            && (!Truthy(GetEnv(env, "AZURE_SQL_DATABASE_BIS")) && "AZURE_SQL_DATABASE" in env ==> r.database == env["AZURE_SQL_DATABASE"])
            && (!Truthy(GetEnv(env, "AZURE_SQL_DATABASE_BIS")) && "AZURE_SQL_DATABASE" !in env ==> r.database == DefaultDatabase)
  {
  }

  /** Where the ADLS options come from when they are left out: the ADLS
      string is `ADLS_CONNECTION_STRING` when non-empty, otherwise
      `AZURE_STORAGE_CONNECTION_STRING`; the container is `raw`, the prefix
      `sql-bis/`, the tables the thirteen default ones, and there is no limit. */
  lemma ParsedAdlsDefaults(cli: CliArgs, env: Env)
    requires cli.adls.None? && cli.container.None? && cli.prefix.None? && cli.tables.None? && cli.limit.None?
    ensures var r := ParseArgs(cli, env);
            && (Truthy(GetEnv(env, "ADLS_CONNECTION_STRING")) ==> r.adls == Some(env["ADLS_CONNECTION_STRING"]))
            && (!Truthy(GetEnv(env, "ADLS_CONNECTION_STRING")) ==> r.adls == GetEnv(env, "AZURE_STORAGE_CONNECTION_STRING"))
            && r.container == "raw" && r.prefix == "sql-bis/" && r.tables == DefaultTables && !LimitTruthy(r.limit)
  {
  }

  /** Without `--database`, the database is empty only when
      `AZURE_SQL_DATABASE_BIS` is unset or empty and `AZURE_SQL_DATABASE` is
      set to the empty string: the fixed default is never empty. */
  lemma DatabaseDefaultEmpty(env: Env)
    ensures DatabaseDefault(env) == "" <==>
              !Truthy(GetEnv(env, "AZURE_SQL_DATABASE_BIS")) && GetEnv(env, "AZURE_SQL_DATABASE") == Some("")
  {
    assert DefaultDatabase != "";
  }

  // ---------------------------------------------------------------------------
  // Missing parameters

  /** The SQL parameters checked by `main`, in the order they are reported. */
  function SqlFields(args: BisArgs): seq<(string, Option<string>)> {
    [("server", args.server), ("database", Some(args.database)), ("username", args.username), ("password", args.password)]
  }

  datatype BisError =
    | MissingSqlParams(names: seq<string>)
    | MissingAdls
    | ConnectionFailed(cause: string)
    | QueryFailed(table: string, cause: string)
    | UploadFailed(table: string, cause: string)

  // ---------------------------------------------------------------------------
  // The ODBC connection string

  datatype OdbcParams = OdbcParams(driver: string, server: string, port: string, database: string, username: string, password: string)

  /** Each field of the ODBC string: the text before its value and the
      character that ends the value. */
  const OdbcFields: seq<(string, char)> :=
    [("Driver={", '}'), (";Server=tcp:", ','), ("", ';'), ("Database=", ';'), ("Uid=", ';'), ("Pwd=", ';')]

  const OdbcTail: string := "Encrypt=yes;TrustServerCertificate=yes;"

  /** `s.endswith(t)`. */
  predicate EndsWith(s: string, t: string) {
    |s| >= |t| && s[|s| - |t|..] == t
  }

  /** `key + value + end` for every field in turn, then `tail`. */
  function Render(keys: seq<(string, char)>, values: seq<string>, tail: string): (r: string)
    requires |keys| == |values|
    ensures EndsWith(r, tail)
  {
    if keys == [] then tail
    else
      var rest := Render(keys[1..], values[1..], tail);
      var head := keys[0].0 + (values[0] + [keys[0].1]);
      assert keys[0].0 + (values[0] + ([keys[0].1] + rest)) == head + rest;
      head + rest
  }

  /** Reading the fields back, each value ending at the first occurrence of
      its end character; the values and what follows the last field. */
  function ReadFields(keys: seq<(string, char)>, s: string): (r: Option<(seq<string>, string)>)
    ensures r.Some? ==> |r.value.0| == |keys|
  {
    if keys == [] then Some(([], s))
    else
      match DropPrefix(s, keys[0].0)
      case None => None
      case Some(r0) =>
        match Cut(r0, keys[0].1)
        case None => None
        case Some((v, r1)) =>
          match ReadFields(keys[1..], r1)
          case None => None
          case Some((vs, rest)) => Some(([v] + vs, rest))
  }

  /** Rendered fields are read back when no value holds its end character. */
  lemma {:induction false} ReadRender(keys: seq<(string, char)>, values: seq<string>, tail: string)
    requires |keys| == |values|
    requires forall i :: 0 <= i < |keys| ==> keys[i].1 !in values[i]
    ensures ReadFields(keys, Render(keys, values, tail)) == Some((values, tail))
  {
    if keys != [] {
      var rest := Render(keys[1..], values[1..], tail);
      var s := Render(keys, values, tail);
      assert s == keys[0].0 + (values[0] + ([keys[0].1] + rest));
      DropPrefixConcat(keys[0].0, values[0] + ([keys[0].1] + rest));
      assert keys[0].1 !in values[0];
      CutConcat(values[0], keys[0].1, rest);
      assert forall i :: 0 <= i < |keys[1..]| ==> keys[1..][i].1 !in values[1..][i] by {
        forall i | 0 <= i < |keys[1..]| ensures keys[1..][i].1 !in values[1..][i] {
          assert keys[1..][i] == keys[i + 1] && values[1..][i] == values[i + 1];
        }
      }
      ReadRender(keys[1..], values[1..], tail);
      assert ReadFields(keys, s) == Some(([values[0]] + values[1..], tail));
      HeadTail(values);
    }
  }

  function OdbcValues(p: OdbcParams): seq<string> {
    [p.driver, p.server, p.port, p.database, p.username, p.password]
  }

  /** The connection string `create_engine` passes to pyodbc:
      `Driver={d};Server=tcp:s,port;Database=db;Uid=u;Pwd=pw;` followed by
      `Encrypt=yes;TrustServerCertificate=yes;`, so TLS is always on. */
  function OdbcString(p: OdbcParams): (r: string)
    ensures EndsWith(r, OdbcTail)
  {
    var values := OdbcValues(p);
    assert |values| == |OdbcFields| == 6;
    Render(OdbcFields, values, OdbcTail)
  }

  /** Reading an ODBC string of that shape back into its parts. */
  function ParseOdbcString(s: string): (r: Option<OdbcParams>)
  {
    match ReadFields(OdbcFields, s)
    case None => None
    case Some((vs, rest)) =>
      if rest == OdbcTail then Some(OdbcParams(vs[0], vs[1], vs[2], vs[3], vs[4], vs[5])) else None
  }

  /** Parts that cannot be confused with the delimiter that ends them. */
  predicate OdbcUnambiguous(p: OdbcParams) {
    && '}' !in p.driver && ',' !in p.server && ';' !in p.port
    && ';' !in p.database && ';' !in p.username && ';' !in p.password
  }

  /** Every part can be read back from the connection string. */
  lemma OdbcStringRoundTrip(p: OdbcParams)
    requires OdbcUnambiguous(p)
    ensures ParseOdbcString(OdbcString(p)) == Some(p)
  {
    var values := OdbcValues(p);
    assert forall i :: 0 <= i < |OdbcFields| ==> OdbcFields[i].1 !in values[i];
    ReadRender(OdbcFields, values, OdbcTail);
  }

  const EnginePrefix: string := "mssql+pyodbc:///?odbc_connect="

  /** The SQLAlchemy URL: the quoted ODBC string as the only query parameter. */
  function EngineUrl(p: OdbcParams): (r: string)
    ensures |r| >= |EnginePrefix| && r[..|EnginePrefix|] == EnginePrefix
    ensures '&' !in r[|EnginePrefix|..] && ';' !in r[|EnginePrefix|..]
  {
    QuotedHasNoDelimiters(OdbcString(p));
    var r := EnginePrefix + QuotePlus(OdbcString(p));
    assert r[..|EnginePrefix|] == EnginePrefix && r[|EnginePrefix|..] == QuotePlus(OdbcString(p));
    r
  }

  lemma AsciiConcat(a: string, b: string)
    requires IsAscii(a) && IsAscii(b)
    ensures IsAscii(a + b)
  {
    forall k | 0 <= k < |a + b| ensures (a + b)[k] as int < 0x80 {
      if k < |a| { assert (a + b)[k] == a[k]; } else { assert (a + b)[k] == b[k - |a|]; }
    }
  }

  predicate AsciiParams(p: OdbcParams) {
    IsAscii(p.driver) && IsAscii(p.server) && IsAscii(p.port) && IsAscii(p.database) && IsAscii(p.username) && IsAscii(p.password)
  }

  lemma {:induction false} RenderAscii(keys: seq<(string, char)>, values: seq<string>, tail: string)
    requires |keys| == |values| && IsAscii(tail)
    requires forall i :: 0 <= i < |keys| ==> IsAscii(keys[i].0) && keys[i].1 as int < 0x80 && IsAscii(values[i])
    ensures IsAscii(Render(keys, values, tail))
  {
    if keys != [] {
      RenderAscii(keys[1..], values[1..], tail);
      var rest := Render(keys[1..], values[1..], tail);
      AsciiConcat([keys[0].1], rest);
      AsciiConcat(values[0], [keys[0].1] + rest);
      AsciiConcat(keys[0].0, values[0] + ([keys[0].1] + rest));
    }
  }

  lemma OdbcStringAscii(p: OdbcParams)
    requires AsciiParams(p)
    ensures IsAscii(OdbcString(p))
  {
    var values := OdbcValues(p);
    forall i | 0 <= i < |OdbcFields|
      ensures IsAscii(OdbcFields[i].0) && OdbcFields[i].1 as int < 0x80 && IsAscii(values[i])
    {
    }
    RenderAscii(OdbcFields, values, OdbcTail);
  }

  /** The connection parameters survive the trip through the URL: unquoting
      the `odbc_connect` value and parsing it gives them back. */
  lemma EngineUrlRoundTrip(p: OdbcParams)
    requires OdbcUnambiguous(p) && AsciiParams(p)
    ensures UnquotePlus(EngineUrl(p)[|EnginePrefix|..]) == Some(OdbcString(p))
    ensures ParseOdbcString(OdbcString(p)) == Some(p)
  {
    var url := EngineUrl(p);
    assert url[|EnginePrefix|..] == QuotePlus(OdbcString(p));
    OdbcStringAscii(p);
    QuotePlusRoundTrip(OdbcString(p));
    OdbcStringRoundTrip(p);
  }

  /** The checks at the start of `main`: falsy SQL parameters are reported
      together, in the order server, database, username, password; then a
      falsy ADLS string stops the run. On success, the parameters
      `create_engine` receives. */
  function CheckArgs(args: BisArgs): (r: Result<OdbcParams, BisError>)
    ensures r.Err? && r.error.MissingSqlParams? ==> r.error.names == MissingAmong(SqlFields(args)) && r.error.names != []
    ensures r.Err? ==> r.error.MissingSqlParams? || r.error == MissingAdls
    ensures r.Ok? <==> Truthy(args.server) && args.database != "" && Truthy(args.username) && Truthy(args.password) && Truthy(args.adls)
    ensures r.Ok? ==> r.value == OdbcParams(args.driver, args.server.value, DefaultPort, args.database, args.username.value, args.password.value)
  {
    var fields := SqlFields(args);
    var missing := MissingAmong(fields);
    assert fields[0] in fields && fields[1] in fields && fields[2] in fields && fields[3] in fields;
    if missing != [] then
      assert !Truthy(args.server) || args.database == "" || !Truthy(args.username) || !Truthy(args.password) by {
        assert missing[0] in missing;
      }
      Err(MissingSqlParams(missing))
    else if !Truthy(args.adls) then
      assert "server" !in missing && "database" !in missing && "username" !in missing && "password" !in missing;
      Err(MissingAdls)
    else
      assert "server" !in missing && "database" !in missing && "username" !in missing && "password" !in missing;
      Ok(OdbcParams(args.driver, args.server.value, DefaultPort, args.database, args.username.value, args.password.value))
  }

  /** A missing SQL parameter is reported before a missing ADLS string. */
  lemma MissingSqlFirst(args: BisArgs)
    requires !Truthy(args.server) || args.database == "" || !Truthy(args.username) || !Truthy(args.password)
    ensures CheckArgs(args).Err? && CheckArgs(args).error.MissingSqlParams?
  {
    var fields := SqlFields(args);
    assert fields[0] in fields && fields[1] in fields && fields[2] in fields && fields[3] in fields;
    if !Truthy(args.server) { assert "server" in MissingAmong(fields); }
    else if args.database == "" { assert "database" in MissingAmong(fields); }
    else if !Truthy(args.username) { assert "username" in MissingAmong(fields); }
    else { assert "password" in MissingAmong(fields); }
  }

  // ---------------------------------------------------------------------------
  // Queries and blob names

  /** Python truthiness of the optional `--limit`: `None` and `0` are falsy. */
  predicate LimitTruthy(limit: Option<int>) {
    limit.Some? && limit.value != 0
  }

  const TopOpen: string := "SELECT TOP ("

  /** `fetch_table`'s query: the whole table, or its first `limit` rows when
      the limit is truthy. */
  function FetchQuery(schema: string, table: string, limit: Option<int>): (r: string)
    ensures var target := " FROM " + schema + "." + table;
            |r| >= |target| && r[|r| - |target|..] == target
  {
    var target := " FROM " + schema + "." + table;
    var r := if LimitTruthy(limit) then TopOpen + (IntToString(limit.value) + (") *" + target)) else "SELECT *" + target;
    assert r[|r| - |target|..] == target;
    r
  }

  /** The row limit written in a query, if any. */
  function QueryLimit(q: string): Option<int> {
    match DropPrefix(q, TopOpen)
    case None => None
    case Some(rest) =>
      match Cut(rest, ')')
      case None => None
      case Some((n, _)) => ParseInt(n)
  }

  lemma IntToStringNoParen(i: int)
    ensures ')' !in IntToString(i)
  {
    var s := IntToString(i);
    if i < 0 {
      var d := DecimalString(-i);
      assert s == "-" + d;
      forall k | 0 <= k < |s| ensures s[k] != ')' {
        if k > 0 { assert s[k] == d[k - 1] && IsDigit(d[k - 1]); }
      }
    } else {
      assert forall k :: 0 <= k < |s| ==> IsDigit(s[k]);
    }
  }

  /** A truthy limit is written into the query and reads back unchanged. */
  lemma FetchQueryTop(schema: string, table: string, limit: int)
    requires limit != 0
    ensures QueryLimit(FetchQuery(schema, table, Some(limit))) == Some(limit)
  {
    var target := " FROM " + schema + "." + table;
    var n := IntToString(limit);
    var rest := n + (") *" + target);
    assert FetchQuery(schema, table, Some(limit)) == TopOpen + rest;
    DropPrefixConcat(TopOpen, rest);
    IntToStringNoParen(limit);
    assert [')'] + (" *" + target) == ") *" + target;
    CutConcat(n, ')', " *" + target);
    assert Cut(rest, ')') == Some((n, " *" + target));
    IntRoundTrip(limit);
  }

  /** Without a truthy limit the query has no `TOP` clause. */
  lemma FetchQueryAll(schema: string, table: string, limit: Option<int>)
    requires !LimitTruthy(limit)
    ensures QueryLimit(FetchQuery(schema, table, limit)) == None
  {
    var q := FetchQuery(schema, table, limit);
    assert q == "SELECT *" + (" FROM " + schema + "." + table);
    assert q[7] == '*' && TopOpen[7] == 'T';
  }

  predicate IsSlash(c: char) {
    c == '/'
  }

  /** `f"{prefix.rstrip('/')}/{table}.parquet"` */
  function BlobName(prefix: string, table: string): (r: string)
    ensures var dir := RStripBy(prefix, IsSlash);
            |r| == |dir| + 1 + |table| + 8
            && r[..|dir|] == dir && r[|dir|] == '/' && r[|dir| + 1..|r| - 8] == table && r[|r| - 8..] == ".parquet"
  {
    RStripBy(prefix, IsSlash) + "/" + table + ".parquet"
  }

  /** However many slashes end the prefix, none included, the name has
      exactly one `/` between the prefix and the table. */
  lemma BlobNameTrailingSlashes(dir: string, slashes: string, table: string)
    requires dir == [] || dir[|dir| - 1] != '/'
    requires AllSatisfy(slashes, IsSlash)
    ensures BlobName(dir + slashes, table) == dir + "/" + table + ".parquet"
  {
    RStripPadded(dir, slashes, IsSlash);
  }

  /** With the same prefix, different tables get different blobs, so no
      upload of a run overwrites another one of the same run. */
  lemma BlobNameInjective(prefix: string, t1: string, t2: string)
    requires BlobName(prefix, t1) == BlobName(prefix, t2)
    ensures t1 == t2
  {
  }

  /** With the default prefix, the blob of table `t` is `sql-bis/t.parquet`. */
  lemma DefaultBlobName(table: string)
    ensures BlobName(DefaultPrefix, table) == "sql-bis/" + table + ".parquet"
  {
    assert DefaultPrefix == "sql-bis" + "/";
    assert AllSatisfy("/", IsSlash);
    BlobNameTrailingSlashes("sql-bis", "/", table);
  }

  // ---------------------------------------------------------------------------
  // The upload loop

  datatype Upload<D> = Upload(container: string, blob: string, frame: D)

  /** The uploads attempted, in order (a failed upload is the last of them),
      and the error that ended the run, if any. */
  datatype Outcome<D> = Outcome(uploads: seq<Upload<D>>, error: Option<BisError>)

  function After<D>(done: seq<Upload<D>>, o: Outcome<D>): Outcome<D> {
    Outcome(done + o.uploads, o.error)
  }

  /** The loop of `main`: read each table with its query and upload the
      frame under its blob name, in order; the first failed query or upload
      ends the run. `read` stands for `pd.read_sql_query` on the engine and
      `upload` for the Parquet upload to the container. */
  function UploadTables<D>(args: BisArgs, tables: seq<string>, read: string -> Result<D, string>, upload: Upload<D> -> Option<string>): (o: Outcome<D>)
    ensures |o.uploads| <= |tables|
    ensures o.error.None? ==> |o.uploads| == |tables|
    ensures o.error.Some? && o.error.value.UploadFailed? ==> o.uploads != []
    ensures forall k :: 0 <= k < |o.uploads| ==> o.uploads[k].container == args.container
  {
    if tables == [] then Outcome([], None)
    else
      match read(FetchQuery(args.schema, tables[0], args.limit))
      case Err(cause) => Outcome([], Some(QueryFailed(tables[0], cause)))
      case Ok(frame) =>
        var u := Upload(args.container, BlobName(args.prefix, tables[0]), frame);
        match upload(u)
        case Some(cause) => Outcome([u], Some(UploadFailed(tables[0], cause)))
        case None => After([u], UploadTables(args, tables[1..], read, upload))
  }

  /** Upload `k` is table `k`'s frame under table `k`'s blob name, in the
      chosen container. */
  lemma {:induction false} UploadTablesOrder<D>(args: BisArgs, tables: seq<string>, read: string -> Result<D, string>, upload: Upload<D> -> Option<string>, k: nat)
    requires k < |UploadTables(args, tables, read, upload).uploads|
    ensures k < |tables|
    ensures read(FetchQuery(args.schema, tables[k], args.limit)).Ok?
    ensures UploadTables(args, tables, read, upload).uploads[k] ==
              Upload(args.container, BlobName(args.prefix, tables[k]), read(FetchQuery(args.schema, tables[k], args.limit)).value)
  {
    var o := UploadTables(args, tables, read, upload);
    assert tables != [];
    var q := read(FetchQuery(args.schema, tables[0], args.limit));
    assert q.Ok?;
    var u := Upload(args.container, BlobName(args.prefix, tables[0]), q.value);
    if k > 0 {
      var rest := UploadTables(args, tables[1..], read, upload);
      assert upload(u).None? && o.uploads == [u] + rest.uploads;
      UploadTablesOrder(args, tables[1..], read, upload, k - 1);
      assert o.uploads[k] == rest.uploads[k - 1] && tables[k] == tables[1..][k - 1];
    } else {
      assert o.uploads[0] == u;
    }
  }

  /** `o` stopped at the first table whose query or upload raised: a failed
      query names the table after the uploads, a failed upload the table of
      the last upload, and every upload before that succeeded. */
  predicate StoppedAtFailure<D>(args: BisArgs, tables: seq<string>, read: string -> Result<D, string>, upload: Upload<D> -> Option<string>, o: Outcome<D>) {
    var n := |o.uploads|;
    && o.error.Some?
    && (o.error.value.QueryFailed? || o.error.value.UploadFailed?)
    && (o.error.value.QueryFailed? ==>
          && n < |tables| && o.error.value.table == tables[n]
          && read(FetchQuery(args.schema, tables[n], args.limit)) == Err(o.error.value.cause)
          && forall k :: 0 <= k < n ==> upload(o.uploads[k]).None?)
    && (o.error.value.UploadFailed? ==>
          && 0 < n <= |tables| && o.error.value.table == tables[n - 1]
          && upload(o.uploads[n - 1]) == Some(o.error.value.cause)
          && forall k :: 0 <= k < n - 1 ==> upload(o.uploads[k]).None?)
  }

  /** A failed run stops at the first table whose query or upload raises. */
  lemma {:induction false} UploadTablesFirstFailure<D>(args: BisArgs, tables: seq<string>, read: string -> Result<D, string>, upload: Upload<D> -> Option<string>)
    requires UploadTables(args, tables, read, upload).error.Some?
    ensures StoppedAtFailure(args, tables, read, upload, UploadTables(args, tables, read, upload))
  {
    assert tables != [];
    var q := read(FetchQuery(args.schema, tables[0], args.limit));
    if q.Ok? && upload(Upload(args.container, BlobName(args.prefix, tables[0]), q.value)).None? {
      UploadTablesFirstFailure(args, tables[1..], read, upload);
      StoppedAfterSuccess(args, tables, read, upload);
    } else {
      StoppedHere(args, tables, read, upload);
    }
  }

  /** A first table whose query or upload raises ends the run there. */
  lemma StoppedHere<D>(args: BisArgs, tables: seq<string>, read: string -> Result<D, string>, upload: Upload<D> -> Option<string>)
    requires tables != []
    requires var q := read(FetchQuery(args.schema, tables[0], args.limit));
             q.Err? || upload(Upload(args.container, BlobName(args.prefix, tables[0]), q.value)).Some?
    ensures StoppedAtFailure(args, tables, read, upload, UploadTables(args, tables, read, upload))
  {
  }

  /** A first table read and uploaded without error leaves the failure to
      the rest of the tables. */
  lemma StoppedAfterSuccess<D>(args: BisArgs, tables: seq<string>, read: string -> Result<D, string>, upload: Upload<D> -> Option<string>)
    requires tables != []
    requires var q := read(FetchQuery(args.schema, tables[0], args.limit));
             q.Ok? && upload(Upload(args.container, BlobName(args.prefix, tables[0]), q.value)).None?
    requires StoppedAtFailure(args, tables[1..], read, upload, UploadTables(args, tables[1..], read, upload))
    ensures StoppedAtFailure(args, tables, read, upload, UploadTables(args, tables, read, upload))
  {
    var o := UploadTables(args, tables, read, upload);
    var rest := UploadTables(args, tables[1..], read, upload);
    var u := Upload(args.container, BlobName(args.prefix, tables[0]), read(FetchQuery(args.schema, tables[0], args.limit)).value);
    assert o.uploads == [u] + rest.uploads && o.error == rest.error;
    var m := |rest.uploads|;
    if rest.error.value.QueryFailed? {
      assert tables[m + 1] == tables[1..][m];
      forall k | 0 <= k < m + 1 ensures upload(o.uploads[k]).None? {
        if k > 0 { assert o.uploads[k] == rest.uploads[k - 1]; }
      }
    } else {
      assert tables[m] == tables[1..][m - 1];
      assert o.uploads[m] == rest.uploads[m - 1];
      forall k | 0 <= k < m ensures upload(o.uploads[k]).None? {
        if k > 0 { assert o.uploads[k] == rest.uploads[k - 1]; }
      }
    }
  }

  /** The loop of `main`, one table per iteration. */
  method UploadAll<D>(args: BisArgs, read: string -> Result<D, string>, upload: Upload<D> -> Option<string>) returns (uploads: seq<Upload<D>>, error: Option<BisError>)
    ensures Outcome(uploads, error) == UploadTables(args, args.tables, read, upload)
  {
    uploads := [];
    error := None;
    var tables := args.tables;
    var i := 0;
    assert tables[0..] == tables;
    while i < |tables|
      invariant 0 <= i <= |tables|
      invariant UploadTables(args, tables, read, upload) == After(uploads, UploadTables(args, tables[i..], read, upload))
    {
      SuffixStep(tables, i);
      var table := tables[i];
      var df := read(FetchQuery(args.schema, table, args.limit));
      if df.Err? {
        error := Some(QueryFailed(table, df.error));
        return;
      }
      var u := Upload(args.container, BlobName(args.prefix, table), df.value);
      var failure := upload(u);
      if failure.Some? {
        uploads := uploads + [u];
        error := Some(UploadFailed(table, failure.value));
        return;
      }
      assert UploadTables(args, tables[i..], read, upload) == After([u], UploadTables(args, tables[i + 1..], read, upload));
      AppendAssoc(uploads, [u], UploadTables(args, tables[i + 1..], read, upload).uploads);
      uploads := uploads + [u];
      i := i + 1;
    }
  }

  /** The whole of `main`: parse, check, connect (`probe` stands for opening
      the engine at the URL and running `SELECT 1`), then upload. */
  function RunMain<D>(cli: CliArgs, env: Env, probe: string -> Option<string>, read: string -> Result<D, string>, upload: Upload<D> -> Option<string>): (o: Outcome<D>)
    ensures CheckArgs(ParseArgs(cli, env)).Err? ==> o == Outcome([], Some(CheckArgs(ParseArgs(cli, env)).error))
    ensures CheckArgs(ParseArgs(cli, env)).Ok? && probe(EngineUrl(CheckArgs(ParseArgs(cli, env)).value)).Some? ==>
              o.uploads == [] && o.error.Some? && o.error.value.ConnectionFailed?
  {
    var args := ParseArgs(cli, env);
    match CheckArgs(args)
    case Err(e) => Outcome([], Some(e))
    case Ok(p) =>
      match probe(EngineUrl(p))
      case Some(cause) => Outcome([], Some(ConnectionFailed(cause)))
      case None => UploadTables(args, args.tables, read, upload)
  }

  /** Nothing is uploaded unless the four SQL parameters and the ADLS string
      are all present and the connection test succeeded. */
  lemma UploadsNeedConfiguration<D>(cli: CliArgs, env: Env, probe: string -> Option<string>, read: string -> Result<D, string>, upload: Upload<D> -> Option<string>)
    requires RunMain(cli, env, probe, read, upload).uploads != []
    ensures var args := ParseArgs(cli, env);
            && Truthy(args.server) && args.database != "" && Truthy(args.username) && Truthy(args.password) && Truthy(args.adls)
            && probe(EngineUrl(CheckArgs(args).value)).None?
  {
  }

  /** With every option left to its default and nothing failing, the run
      writes the thirteen default tables to `raw/sql-bis/<table>.parquet`, in
      order. */
  lemma DefaultRun<D>(env: Env, probe: string -> Option<string>, read: string -> Result<D, string>, upload: Upload<D> -> Option<string>, k: nat)
    requires var o := RunMain(CliArgs(None, None, None, None, None, None, None, None, None, None, None), env, probe, read, upload);
             o.error.None? && k < |o.uploads|
    ensures var o := RunMain(CliArgs(None, None, None, None, None, None, None, None, None, None, None), env, probe, read, upload);
            |o.uploads| == 13 && o.uploads[k].container == "raw" && o.uploads[k].blob == "sql-bis/" + DefaultTables[k] + ".parquet"
  {
    var cli := CliArgs(None, None, None, None, None, None, None, None, None, None, None);
    var args := ParseArgs(cli, env);
    assert args.tables == DefaultTables && args.container == DefaultContainer && args.prefix == DefaultPrefix;
    var p := CheckArgs(args).value;
    assert probe(EngineUrl(p)).None?;
    assert RunMain(cli, env, probe, read, upload) == UploadTables(args, DefaultTables, read, upload);
    UploadTablesOrder(args, args.tables, read, upload, k);
    DefaultBlobName(DefaultTables[k]);
  }
}
