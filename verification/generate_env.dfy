/** `analytics/api/generate_env.py`: writes the API's `.env` file once, taking
    the SQL server, database and credentials from the Terraform variables
    file when it has them and from fixed fallbacks otherwise. Its tfvars
    reader is looser than the one of `analytics/export_to_sql.py`: any line
    with an `=` counts, split at the first `=`. */
module GenerateEnv {
  import opened Common

  predicate IsDoubleQuote(c: char) {
    c == '"'
  }

  /** One line of the tfvars file as `guess_sql_defaults` reads it: blank
      lines, comments and lines without `=` are skipped; otherwise the key is
      what precedes the first `=`, stripped, and the value what follows it,
      stripped and then rid of surrounding double quotes. */
  function ParseTfvarsLine(raw: string): (r: Option<(string, string)>)
    ensures var line := Strip(raw);
            r.None? <==> line == [] || line[0] == '#' || '=' !in line
  {
    ParseStripped(Strip(raw))
  }

  /** The same on a line that is already stripped. */
  function ParseStripped(line: string): Option<(string, string)>
  {
    if line == [] || line[0] == '#' then None
    else
      match Cut(line, '=')
      case None => None
      case Some((key, rawValue)) => Some((Strip(key), CleanValue(rawValue)))
  }

  /** `raw_value.strip().strip('"')` */
  function CleanValue(rawValue: string): (r: string)
    ensures r == [] || (r[0] != '"' && r[|r| - 1] != '"')
  {
    StripBy(Strip(rawValue), IsDoubleQuote)
  }

  lemma StrippedKey(key: string)
    requires '=' !in key
    ensures '=' !in Strip(key) && Strip(Strip(key)) == Strip(key)
  {
    StripByIdempotent(key, IsSpace);
    if '=' in Strip(key) {
      StripByKeeps(key, IsSpace, '=');
    }
  }

  /** A key that is read is stripped and holds no `=`; a value has no double
      quote at either end. */
  lemma ParseTfvarsLineShape(raw: string)
    requires ParseTfvarsLine(raw).Some?
    ensures var kv := ParseTfvarsLine(raw).value;
            && '=' !in kv.0 && Strip(kv.0) == kv.0
            && (kv.1 == [] || (kv.1[0] != '"' && kv.1[|kv.1| - 1] != '"'))
  {
    var line := Strip(raw);
    assert ParseTfvarsLine(raw) == ParseStripped(line);
    ParseStrippedShape(line);
  }

  lemma ParseStrippedShape(line: string)
    requires ParseStripped(line).Some?
    ensures '=' !in ParseStripped(line).value.0 && Strip(ParseStripped(line).value.0) == ParseStripped(line).value.0
    ensures var v := ParseStripped(line).value.1;
            v == [] || (v[0] != '"' && v[|v| - 1] != '"')
  {
    var cut := Cut(line, '=').value;
    assert ParseStripped(line).value == (Strip(cut.0), CleanValue(cut.1));
    StrippedKey(cut.0);
  }

  /** Stripping a quoted value of its double quotes gives the value back. */
  lemma Unquote(value: string)
    requires value == [] || (value[0] != '"' && value[|value| - 1] != '"')
    ensures StripBy("\"" + value + "\"", IsDoubleQuote) == value
  {
    var quoted := "\"" + value + "\"";
    if value == [] {
      assert quoted == [] + [] + "\"\"";
      assert AllSatisfy("\"\"", IsDoubleQuote);
      StripByPadded([], [], "\"\"", IsDoubleQuote);
    } else {
      StripByPadded("\"", value, "\"", IsDoubleQuote);
    }
  }

  lemma NoEqualsInSpaces(w: string)
    requires AllSatisfy(w, IsSpace)
    ensures '=' !in w
  {
    forall k | 0 <= k < |w| ensures w[k] != '=' { assert IsSpace(w[k]); }
  }

  lemma StripTrailing(key: string, w: string)
    requires key != [] && !IsSpace(key[0]) && !IsSpace(key[|key| - 1]) && AllSatisfy(w, IsSpace)
    ensures Strip(key + w) == key
  {
    assert key + w == [] + key + w;
    StripByPadded([], key, w, IsSpace);
  }

  lemma CleanQuoted(w: string, value: string)
    requires AllSatisfy(w, IsSpace)
    requires value == [] || (value[0] != '"' && value[|value| - 1] != '"')
    ensures CleanValue(w + ("\"" + value + "\"")) == value
  {
    var quoted := "\"" + value + "\"";
    assert w + quoted == w + quoted + [];
    StripByPadded(w, quoted, [], IsSpace);
    Unquote(value);
  }

  /** The stripped text of an assignment `key = "value"`. */
  lemma ParseStrippedAssignment(key: string, w2: string, w3: string, value: string)
    requires AllSatisfy(w2, IsSpace) && AllSatisfy(w3, IsSpace)
    requires key != [] && !IsSpace(key[0]) && !IsSpace(key[|key| - 1]) && key[0] != '#' && '=' !in key
    requires value == [] || (value[0] != '"' && value[|value| - 1] != '"')
    ensures ParseStripped(key + w2 + ("=" + (w3 + ("\"" + value + "\"")))) == Some((key, value))
  {
    var left := key + w2;
    var right := w3 + ("\"" + value + "\"");
    NoEqualsInSpaces(w2);
    CutConcat(left, '=', right);
    StripTrailing(key, w2);
    CleanQuoted(w3, value);
  }

  /** A Terraform assignment `key = "value"`, with any blanks around its
      parts, is read as the pair (key, value). The value may itself hold `=`. */
  lemma ParseAssignment(w1: string, key: string, w2: string, w3: string, value: string, w4: string)
    requires AllSatisfy(w1, IsSpace) && AllSatisfy(w2, IsSpace) && AllSatisfy(w3, IsSpace) && AllSatisfy(w4, IsSpace)
    requires key != [] && !IsSpace(key[0]) && !IsSpace(key[|key| - 1]) && key[0] != '#' && '=' !in key
    requires value == [] || (value[0] != '"' && value[|value| - 1] != '"')
    ensures ParseTfvarsLine(w1 + (key + w2 + ("=" + (w3 + ("\"" + value + "\"")))) + w4) == Some((key, value))
  {
    var core := key + w2 + ("=" + (w3 + ("\"" + value + "\"")));
    assert core[0] == key[0] && core[|core| - 1] == '"';
    StripByPadded(w1, core, w4, IsSpace);
    ParseStrippedAssignment(key, w2, w3, value);
  }

  const ServerSuffix: string := ".database.windows.net"

  /** Truthiness of `values.get(key)`. */
  predicate HasValue(values: map<string, string>, key: string) {
    key in values && values[key] != ""
  }

  /** `if values.get(src): defaults[dst] = values[src]` */
  function CopyIfValue(d: map<string, string>, values: map<string, string>, src: string, dst: string): map<string, string>
  {
    if HasValue(values, src) then d[dst := values[src]] else d
  }

  /** The defaults `guess_sql_defaults` derives from the tfvars values: each
      entry only when its tfvars value is non-empty, the server with the Azure
      SQL domain appended. */
  function DefaultsFromValues(values: map<string, string>): (d: map<string, string>)
  {
    var d1: map<string, string> := if HasValue(values, "sql_server_name") then map["AZURE_SQL_SERVER" := values["sql_server_name"] + ServerSuffix] else map[];
    var d2 := CopyIfValue(d1, values, "sql_database_name", "AZURE_SQL_DATABASE");
    var d3 := CopyIfValue(d2, values, "sql_admin_login", "AZURE_SQL_USERNAME");
    CopyIfValue(d3, values, "sql_admin_password", "AZURE_SQL_PASSWORD")
  }

  /** Which defaults exist and what they hold: an entry exactly when its
      tfvars value is non-empty, never an empty default, and nothing else. */
  lemma DefaultsMeaning(values: map<string, string>)
    ensures var d := DefaultsFromValues(values);
            && d.Keys <= {"AZURE_SQL_SERVER", "AZURE_SQL_DATABASE", "AZURE_SQL_USERNAME", "AZURE_SQL_PASSWORD"}
            && ("AZURE_SQL_SERVER" in d <==> HasValue(values, "sql_server_name"))
            && ("AZURE_SQL_SERVER" in d ==> d["AZURE_SQL_SERVER"] == values["sql_server_name"] + ServerSuffix)
            && ("AZURE_SQL_DATABASE" in d <==> HasValue(values, "sql_database_name"))
            && ("AZURE_SQL_DATABASE" in d ==> d["AZURE_SQL_DATABASE"] == values["sql_database_name"])
            && ("AZURE_SQL_USERNAME" in d <==> HasValue(values, "sql_admin_login"))
            && ("AZURE_SQL_USERNAME" in d ==> d["AZURE_SQL_USERNAME"] == values["sql_admin_login"])
            && ("AZURE_SQL_PASSWORD" in d <==> HasValue(values, "sql_admin_password"))
            && ("AZURE_SQL_PASSWORD" in d ==> d["AZURE_SQL_PASSWORD"] == values["sql_admin_password"])
            && (forall k :: k in d ==> d[k] != "")
  {
  }

  /** `guess_sql_defaults()`: `file` is the tfvars file's lines, or `None`
      when it does not exist. */
  method GuessSqlDefaults(file: Option<seq<string>>) returns (defaults: map<string, string>)
    ensures file.None? ==> defaults == map[]
    ensures file.Some? ==> defaults == DefaultsFromValues(CollectPairs(file.value, ParseTfvarsLine))
  {
    if file.None? {
      return map[];
    }
    var values := ReadAssignments(file.value, ParseTfvarsLine);
    defaults := map[];
    var server := if "sql_server_name" in values then Some(values["sql_server_name"]) else None;
    if Truthy(server) {
      defaults := defaults["AZURE_SQL_SERVER" := server.value + ServerSuffix];
    }
    defaults := CopyValue(defaults, values, "sql_database_name", "AZURE_SQL_DATABASE");
    defaults := CopyValue(defaults, values, "sql_admin_login", "AZURE_SQL_USERNAME");
    defaults := CopyValue(defaults, values, "sql_admin_password", "AZURE_SQL_PASSWORD");
  }

  /** One `if values.get(src): defaults[dst] = values[src]` step. */
  method CopyValue(d: map<string, string>, values: map<string, string>, src: string, dst: string)
    returns (d': map<string, string>)
    ensures d' == CopyIfValue(d, values, src, dst)
  {
    d' := d;
    if src in values && values[src] != "" {
      d' := d[dst := values[src]];
    }
  }

  /** The value defaults are read from, for a tfvars file that may be missing. */
  function TfvarsDefaults(file: Option<seq<string>>): map<string, string> {
    if file.None? then map[] else DefaultsFromValues(CollectPairs(file.value, ParseTfvarsLine))
  }

  // ---------------------------------------------------------------------------
  // The .env file

  const Header: string := "# fichier genere automatiquement, veuillez verifier les valeurs"

  /** The lines after the SQL ones, the same whatever the defaults. */
  const FixedLines: seq<string> := [
    "AZURE_SQL_SCHEMA=dbo",
    "AZURE_SQL_DRIVER=ODBC Driver 18 for SQL Server",
    "AZURE_SQL_CHUNKSIZE=100",
    "ALLOWED_TABLES="
    + "stg_population,stg_creation_entreprises,stg_creation_entrepreneurs_individuels,"
    + "stg_deces,stg_ds_filosofi,stg_emploi_chomage,stg_fecondite,"
    + "stg_filosofi_age_tp_nivvie,stg_logement,stg_menage,stg_naissances,"
    + "dim_commune,bridge_commune_code_postal"
  ]

  /** `f"{key}={defaults.get(key, fallback)}"` */
  function EnvLine(defaults: map<string, string>, key: string, fallback: string): string
  {
    key + "=" + (if key in defaults then defaults[key] else fallback)
  }

  /** The keys of the four SQL lines, in order, and their fallbacks. */
  const SqlKeys: seq<string> := ["AZURE_SQL_SERVER", "AZURE_SQL_DATABASE", "AZURE_SQL_USERNAME", "AZURE_SQL_PASSWORD"]
  const Fallbacks: seq<string> := ["sqlelbrek-prod.database.windows.net", "projet_data_eng", "sqladmin", "ChangeM3!Please"]

  /** `defaults.get(key, fallback)` for the `k`-th SQL line. */
  function EnvValue(defaults: map<string, string>, k: nat): string
    requires k < 4
  {
    if SqlKeys[k] in defaults then defaults[SqlKeys[k]] else Fallbacks[k]
  }

  function SqlLines(defaults: map<string, string>): seq<string> {
    [ EnvLine(defaults, SqlKeys[0], Fallbacks[0]),
      EnvLine(defaults, SqlKeys[1], Fallbacks[1]),
      EnvLine(defaults, SqlKeys[2], Fallbacks[2]),
      EnvLine(defaults, SqlKeys[3], Fallbacks[3]) ]
  }

  /** Each SQL line reads back, at its first `=`, as its key and the value
      taken: the tfvars default when there is one, the fallback otherwise. */
  lemma SqlLineReadsBack(defaults: map<string, string>, k: nat)
    requires k < 4
    ensures Cut(SqlLines(defaults)[k], '=') == Some((SqlKeys[k], EnvValue(defaults, k)))
  {
    var key := SqlKeys[k];
    assert '=' !in key;
    var v := EnvValue(defaults, k);
    assert SqlLines(defaults)[k] == key + ("=" + v);
    CutConcat(key, '=', v);
  }

  /** The lines of the generated file, in order. */
  function EnvLines(defaults: map<string, string>): (r: seq<string>)
    ensures |r| == 9 && r[1..5] == SqlLines(defaults)
  {
    [Header] + SqlLines(defaults) + FixedLines
  }

  /** `"\n".join(env_lines) + "\n"`: every line of the file, the last one
      included, ends with a newline, so the text is the lines joined with an
      empty last piece. */
  function EnvText(defaults: map<string, string>): (r: string)
    ensures r == Join(EnvLines(defaults) + [""], "\n")
    ensures r != [] && r[|r| - 1] == '\n'
  {
    JoinSnocEmpty(EnvLines(defaults), "\n");
    Join(EnvLines(defaults), "\n") + "\n"
  }

  /** `main()`: nothing is written when the `.env` file already exists;
      otherwise the text written to it. */
  method WriteEnvFile(envExists: bool, tfvars: Option<seq<string>>) returns (written: Option<string>)
    ensures envExists ==> written.None?
    ensures !envExists ==> written == Some(EnvText(TfvarsDefaults(tfvars)))
  {
    if envExists {
      return None;
    }
    var defaults := GuessSqlDefaults(tfvars);
    var envLines := [Header] + SqlLines(defaults) + FixedLines;
    written := Some(Join(envLines, "\n") + "\n");
  }

  /** Joining with an extra empty last piece adds one separator at the end. */
  lemma {:induction false} JoinSnocEmpty(xs: seq<string>, sep: string)
    requires |xs| >= 1
    ensures Join(xs + [""], sep) == Join(xs, sep) + sep
  {
    if |xs| == 1 {
      assert xs + [""] == [xs[0], ""];
      assert Join([""], sep) == "";
    } else {
      assert (xs + [""])[1..] == xs[1..] + [""];
      JoinSnocEmpty(xs[1..], sep);
      AppendAssoc(xs[0] + sep, Join(xs[1..], sep), sep);
    }
  }

  /** The values written to the file: the tfvars server name in the Azure
      SQL domain and the tfvars database, login and password, each only when
      non-empty, the fallback otherwise; the last assignment of a tfvars key
      is the one that counts, and without a tfvars file every value is its
      fallback. */
  lemma EnvValues(tfvars: Option<seq<string>>)
    ensures var values := if tfvars.None? then map[] else CollectPairs(tfvars.value, ParseTfvarsLine);
            var d := TfvarsDefaults(tfvars);
            && EnvValue(d, 0) == (if HasValue(values, "sql_server_name") then values["sql_server_name"] + ServerSuffix else Fallbacks[0])
            && EnvValue(d, 1) == (if HasValue(values, "sql_database_name") then values["sql_database_name"] else Fallbacks[1])
            && EnvValue(d, 2) == (if HasValue(values, "sql_admin_login") then values["sql_admin_login"] else Fallbacks[2])
            && EnvValue(d, 3) == (if HasValue(values, "sql_admin_password") then values["sql_admin_password"] else Fallbacks[3])
  {
    var values: map<string, string> := if tfvars.None? then map[] else CollectPairs(tfvars.value, ParseTfvarsLine);
    DefaultsMeaning(values);
    assert TfvarsDefaults(tfvars) == DefaultsFromValues(values);
  }
}
