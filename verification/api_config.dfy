/** `analytics/api/app/config.py`: the settings of the read-only API, their
    defaults, the validation of the allowed-table list, the SQLAlchemy URL
    and the set of tables the API may serve. */
module ApiConfig {
  import opened Common
  import opened SqlUrl

  // ---------------------------------------------------------------------------
  // The allowed-table list

  /** The value `allowed_tables` receives before validation: nothing, a
      string, a list or tuple (each item as `str(item)` renders it), or
      anything else. */
  datatype RawTables = RawNone | RawString(text: string) | RawItems(items: seq<string>) | RawOther

  /** A table name as validation leaves it: non-empty, with no blank at
      either end. */
  predicate Clean(t: string) {
    t != [] && !IsSpace(t[0]) && !IsSpace(t[|t| - 1])
  }

  /** A clean name is its own stripped form. */
  lemma CleanIsStripped(t: string)
    requires Clean(t)
    ensures Strip(t) == t
  {
    StripByNoop(t, IsSpace);
  }

  /** `[item.strip() for item in items if item.strip()]` */
  function StrippedItems(items: seq<string>): (r: seq<string>)
    ensures |r| <= |items|
  {
    if items == [] then []
    else
      var item := Strip(items[0]);
      if item == [] then StrippedItems(items[1..]) else [item] + StrippedItems(items[1..])
  }

  /** Every item the comprehension keeps is a clean name. */
  lemma {:induction false} StrippedItemsClean(items: seq<string>)
    ensures forall k :: 0 <= k < |StrippedItems(items)| ==> Clean(StrippedItems(items)[k])
  {
    if items != [] {
      StrippedItemsClean(items[1..]);
    }
  }

  /** The comprehension keeps the order of the items: what the first items
      give comes before what the next ones give. */
  lemma {:induction false} StrippedItemsConcat(a: seq<string>, b: seq<string>)
    ensures StrippedItems(a + b) == StrippedItems(a) + StrippedItems(b)
  {
    if a == [] {
      assert a + b == b;
    } else {
      assert (a + b)[0] == a[0] && (a + b)[1..] == a[1..] + b;
      StrippedItemsConcat(a[1..], b);
    }
  }

  /** Items that are already stripped and non-empty pass through unchanged. */
  lemma {:induction false} StrippedItemsKeeps(items: seq<string>)
    requires forall k :: 0 <= k < |items| ==> Clean(items[k])
    ensures StrippedItems(items) == items
  {
    if items != [] {
      CleanIsStripped(items[0]);
      StrippedItemsKeeps(items[1..]);
      assert StrippedItems(items) == [items[0]] + StrippedItems(items[1..]);
      HeadTail(items);
    }
  }

  /** `Settings._split_tables`: `None` stays `None`; a string is split on
      commas; a list or tuple is taken item by item; in both cases each item
      is stripped and the empty ones dropped. Any other value gives `None`. */
  function SplitTables(value: RawTables): (r: Option<seq<string>>)
    ensures r.None? <==> value.RawNone? || value.RawOther?
    ensures r.Some? ==> forall k :: 0 <= k < |r.value| ==> Clean(r.value[k])
  {
    match value
    case RawNone => None
    case RawString(text) =>
      StrippedItemsClean(Split(text, ','));
      Some(StrippedItems(Split(text, ',')))
    case RawItems(items) =>
      StrippedItemsClean(items);
      Some(StrippedItems(items))
    case RawOther => None
  }

  /** A comma-separated list of clean table names is read back as exactly
      that list, in order. */
  lemma SplitTablesRoundTrip(tables: seq<string>)
    requires |tables| >= 1
    requires forall k :: 0 <= k < |tables| ==> Clean(tables[k]) && ',' !in tables[k]
    ensures SplitTables(RawString(Join(tables, ","))) == Some(tables)
  {
    SplitJoin(tables, ',');
    StrippedItemsKeeps(tables);
  }

  /** Validating an already validated list changes nothing. */
  lemma SplitTablesIdempotent(value: RawTables)
    requires SplitTables(value).Some?
    ensures SplitTables(RawItems(SplitTables(value).value)) == SplitTables(value)
  {
    StrippedItemsKeeps(SplitTables(value).value);
  }

  // ---------------------------------------------------------------------------
  // The settings

  const DefaultSchema: string := "dbo"
  const DefaultDriver: string := "ODBC Driver 18 for SQL Server"
  const DefaultPort: int := 1433
  const DefaultChunksize: int := 100

  datatype Settings = Settings(
    server: string, database: string, username: string, password: string,
    schema: string, driver: string, port: int, chunksize: int,
    allowedTables: Option<seq<string>>)

  /** A string setting: its variable, an empty value counting as absent
      (`env_ignore_empty=True`). */
  function Field(env: Env, name: string): (r: Option<string>)
    ensures r.Some? <==> Truthy(GetEnv(env, name))
    ensures r.Some? ==> r.value == env[name]
  {
    if Truthy(GetEnv(env, name)) then GetEnv(env, name) else None
  }

  /** A string setting with a default: the default when the variable is
      absent or empty. */
  function FieldOr(env: Env, name: string, default: string): (r: string)
    ensures Truthy(GetEnv(env, name)) ==> r == env[name]
    ensures !Truthy(GetEnv(env, name)) ==> r == default
  {
    if Truthy(GetEnv(env, name)) then env[name] else default
  }

  function RequiredFields(env: Env): seq<(string, Option<string>)> {
    [ ("azure_sql_server", Field(env, "AZURE_SQL_SERVER")),
      ("azure_sql_database", Field(env, "AZURE_SQL_DATABASE")),
      ("azure_sql_username", Field(env, "AZURE_SQL_USERNAME")),
      ("azure_sql_password", Field(env, "AZURE_SQL_PASSWORD")) ]
  }

  /** Building `Settings()`: the four connection settings are required,
      the others fall back on their defaults. `port` and `chunksize` are the
      integer values of their variables, when set and non-empty; `tables` is
      what `allowed_tables` receives. A failure lists the missing settings in
      field order. */
  function LoadSettings(env: Env, port: Option<int>, chunksize: Option<int>, tables: RawTables): (r: Result<Settings, seq<string>>)
    ensures r.Ok? <==> Truthy(GetEnv(env, "AZURE_SQL_SERVER")) && Truthy(GetEnv(env, "AZURE_SQL_DATABASE"))
                       && Truthy(GetEnv(env, "AZURE_SQL_USERNAME")) && Truthy(GetEnv(env, "AZURE_SQL_PASSWORD"))
    ensures r.Err? ==> r.error == MissingAmong(RequiredFields(env)) && r.error != []
  {
    var fields := RequiredFields(env);
    var missing := MissingAmong(fields);
    assert fields[0] in fields && fields[1] in fields && fields[2] in fields && fields[3] in fields;
    if missing != [] then
      assert !Truthy(fields[0].1) || !Truthy(fields[1].1) || !Truthy(fields[2].1) || !Truthy(fields[3].1) by {
        assert missing[0] in missing;
      }
      Err(missing)
    else
      assert "azure_sql_server" !in missing && "azure_sql_database" !in missing;
      assert "azure_sql_username" !in missing && "azure_sql_password" !in missing;
      Ok(Settings(
        env["AZURE_SQL_SERVER"], env["AZURE_SQL_DATABASE"], env["AZURE_SQL_USERNAME"], env["AZURE_SQL_PASSWORD"],
        FieldOr(env, "AZURE_SQL_SCHEMA", DefaultSchema),
        FieldOr(env, "AZURE_SQL_DRIVER", DefaultDriver),
        if port.Some? then port.value else DefaultPort,
        if chunksize.Some? then chunksize.value else DefaultChunksize,
        SplitTables(tables)))
  }

  /** Left unset or empty, schema, driver, port, chunk size and table list
      take their defaults: `dbo`, ODBC Driver 18, 1433, 100 and no list. */
  lemma SettingsDefaults(env: Env)
    requires LoadSettings(env, None, None, RawNone).Ok?
    requires !Truthy(GetEnv(env, "AZURE_SQL_SCHEMA")) && !Truthy(GetEnv(env, "AZURE_SQL_DRIVER"))
    ensures var s := LoadSettings(env, None, None, RawNone).value;
            && s.schema == "dbo" && s.driver == "ODBC Driver 18 for SQL Server"
            && s.port == 1433 && s.chunksize == 100 && s.allowedTables.None?
  {
  }

  // ---------------------------------------------------------------------------
  // The SQLAlchemy URL and the allowed tables

  /** `Settings.sqlalchemy_dsn`: the pyodbc URL with the port written in
      decimal. Every setting can be read back from it, the port as the same
      integer, when the user name has no `:`, the password no `@`, the server
      no `:`, the database no `?` and the driver no `+`. */
  function SqlalchemyDsn(s: Settings): (r: string)
    ensures ':' !in s.username && '@' !in s.password && ':' !in s.server && '?' !in s.database && '+' !in s.driver ==>
              && ParsePyodbcUrl(r) == Some(UrlParts(s.username, s.password, s.server, IntToString(s.port), s.database, s.driver))
              && ParseInt(IntToString(s.port)) == Some(s.port)
  {
    var p := UrlParts(s.username, s.password, s.server, IntToString(s.port), s.database, s.driver);
    if ':' !in s.username && '@' !in s.password && ':' !in s.server && '?' !in s.database && '+' !in s.driver then
      IntToStringNoSlash(s.port);
      PyodbcUrlRoundTrip(p);
      IntRoundTrip(s.port);
      PyodbcUrl(p)
    else
      PyodbcUrl(p)
  }

  lemma IntToStringNoSlash(i: int)
    ensures '/' !in IntToString(i)
  {
    var t := IntToString(i);
    if i < 0 {
      var d := DecimalString(-i);
      assert t == "-" + d;
      forall k | 0 <= k < |t| ensures t[k] != '/' {
        if k > 0 { assert t[k] == d[k - 1] && IsDigit(d[k - 1]); }
      }
    } else {
      assert forall k :: 0 <= k < |t| ==> IsDigit(t[k]);
    }
  }

  /** `Settings.allowed_tables_set`: no restriction when the list is missing
      or empty, otherwise the set of its tables. */
  function AllowedTablesSet(s: Settings): (r: Option<set<string>>)
    ensures r.None? <==> s.allowedTables.None? || s.allowedTables.value == []
    ensures r.Some? ==> forall t :: t in r.value <==> t in s.allowedTables.value
  {
    if s.allowedTables.None? || s.allowedTables.value == [] then None
    else Some(set t | t in s.allowedTables.value)
  }

  /** A table list made only of blanks and commas, such as
      `ALLOWED_TABLES=" , "`, lifts every restriction rather than forbidding
      every table. (An empty `ALLOWED_TABLES=` never reaches the validator:
      it is ignored and the field keeps its default.) */
  lemma BlankListAllowsAll(env: Env, port: Option<int>, chunksize: Option<int>, text: string)
    requires LoadSettings(env, port, chunksize, RawString(text)).Ok?
    requires forall k :: 0 <= k < |text| ==> text[k] == ',' || IsSpace(text[k])
    ensures AllowedTablesSet(LoadSettings(env, port, chunksize, RawString(text)).value).None?
  {
    BlankPieces(text);
    BlankItems(Split(text, ','));
  }

  /** Splitting blanks and commas on commas gives only blank pieces. */
  lemma {:induction false} BlankPieces(text: string)
    requires forall k :: 0 <= k < |text| ==> text[k] == ',' || IsSpace(text[k])
    ensures forall k :: 0 <= k < |Split(text, ',')| ==> AllSatisfy(Split(text, ',')[k], IsSpace)
    decreases |text|
  {
    var i := IndexOf(text, ',');
    var head := text[..i];
    assert AllSatisfy(head, IsSpace) by {
      forall n | 0 <= n < |head| ensures IsSpace(head[n]) {
        assert head[n] == text[n];
      }
    }
    if i < |text| {
      var tail := text[i + 1..];
      assert forall n :: 0 <= n < |tail| ==> tail[n] == text[i + 1 + n];
      BlankPieces(tail);
      var rest := Split(tail, ',');
      assert Split(text, ',') == [head] + rest;
      forall k | 0 <= k < |Split(text, ',')| ensures AllSatisfy(Split(text, ',')[k], IsSpace) {
        if k > 0 { assert Split(text, ',')[k] == rest[k - 1]; }
      }
    } else {
      assert head == text;
      assert Split(text, ',') == [head];
    }
  }

  lemma {:induction false} BlankItems(items: seq<string>)
    requires forall k :: 0 <= k < |items| ==> AllSatisfy(items[k], IsSpace)
    ensures StrippedItems(items) == []
  {
    if items != [] {
      BlankItems(items[1..]);
      assert [] + [] + items[0] == items[0];
      StripByPadded([], [], items[0], IsSpace);
    }
  }

  /** Every allowed table is a non-empty name without surrounding blanks. */
  lemma AllowedTablesClean(s: Settings, table: string)
    requires s.allowedTables.Some?
    requires forall k :: 0 <= k < |s.allowedTables.value| ==> Clean(s.allowedTables.value[k])
    requires AllowedTablesSet(s).Some? && table in AllowedTablesSet(s).value
    ensures table != [] && Strip(table) == table
  {
    var k :| 0 <= k < |s.allowedTables.value| && s.allowedTables.value[k] == table;
    CleanIsStripped(table);
  }
}
