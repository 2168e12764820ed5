/** Where `analytics/export_to_sql.py` gets its SQL connection parameters:
    command-line options (whose defaults come from `AZURE_SQL_*` variables),
    then the values read from `Terraform/terraform.tfvars`. */
module SqlExportDefaults {
  import opened Common

  // ---------------------------------------------------------------------------
  // The `key = "value"` line pattern

  predicate IsIdentStart(c: char) {
    ('A' <= c <= 'Z') || ('a' <= c <= 'z') || c == '_'
  }

  predicate IsIdentChar(c: char) {
    IsIdentStart(c) || IsDigit(c)
  }

  /** `[A-Za-z_][A-Za-z0-9_]*` */
  predicate IsIdentifier(k: string) {
    |k| >= 1 && IsIdentStart(k[0]) && AllSatisfy(k[1..], IsIdentChar)
  }

  predicate NotQuote(c: char) {
    c != '"'
  }

  /** A line the pattern accepts, cut into its parts: leading blanks, the key,
      blanks, `=`, blanks, the quoted value, and whatever follows (the pattern
      is not anchored at the end). */
  function Assignment(w1: string, key: string, w2: string, w3: string, value: string, tail: string): string
  {
    w1 + (key + (w2 + ("=" + (w3 + ("\"" + (value + ("\"" + tail)))))))
  }

  predicate AssignmentParts(w1: string, key: string, w2: string, w3: string, value: string) {
    AllSatisfy(w1, IsSpace) && AllSatisfy(w2, IsSpace) && AllSatisfy(w3, IsSpace)
    && IsIdentifier(key) && AllSatisfy(value, NotQuote)
  }

  /** `re.match(r'^\s*([A-Za-z_][A-Za-z0-9_]*)\s*=\s*"([^"]*)"', line)`, giving
      the two groups. Every part is consumed greedily and no backtracking can
      change the outcome, since each part ends where the next one's first
      character cannot belong to it. */
  function MatchAssignment(line: string): (r: Option<(string, string)>)
    ensures r.Some? ==> IsIdentifier(r.value.0) && AllSatisfy(r.value.1, NotQuote)
  {
    MatchKey(line[SpanLen(line, IsSpace)..])
  }

  /** The key group, then the rest. */
  function MatchKey(s: string): (r: Option<(string, string)>)
    ensures r.Some? ==> IsIdentifier(r.value.0) && AllSatisfy(r.value.1, NotQuote)
  {
    if s == [] || !IsIdentStart(s[0]) then None
    else
      var n := 1 + SpanLen(s[1..], IsIdentChar);
      assert s[..n][1..] == s[1..][..n - 1];
      MatchEquals(s[..n], s[n..])
  }

  /** Blanks, `=`, then the rest. */
  function MatchEquals(key: string, s: string): (r: Option<(string, string)>)
    ensures r.Some? ==> r.value.0 == key && AllSatisfy(r.value.1, NotQuote)
  {
    var t := s[SpanLen(s, IsSpace)..];
    if t == [] || t[0] != '=' then None else MatchValue(key, t[1..])
  }

  /** Blanks, then the quoted value. */
  function MatchValue(key: string, s: string): (r: Option<(string, string)>)
    ensures r.Some? ==> r.value.0 == key && AllSatisfy(r.value.1, NotQuote)
  {
    var t := s[SpanLen(s, IsSpace)..];
    if t == [] || t[0] != '"' then None else MatchQuoted(key, t[1..])
  }

  /** The value group `[^"]*` and its closing quote. */
  function MatchQuoted(key: string, s: string): (r: Option<(string, string)>)
    ensures r.Some? ==> r.value.0 == key && AllSatisfy(r.value.1, NotQuote)
  {
    var q := SpanLen(s, NotQuote);
    if q == |s| then None else Some((key, s[..q]))
  }

  lemma MatchQuotedComplete(key: string, value: string, tail: string)
    requires AllSatisfy(value, NotQuote)
    ensures MatchQuoted(key, value + ("\"" + tail)) == Some((key, value))
  {
    SpanLenPrefix(value, "\"" + tail, NotQuote);
    assert (value + ("\"" + tail))[..|value|] == value;
  }

  lemma MatchValueComplete(key: string, w3: string, value: string, tail: string)
    requires AllSatisfy(w3, IsSpace) && AllSatisfy(value, NotQuote)
    ensures MatchValue(key, w3 + ("\"" + (value + ("\"" + tail)))) == Some((key, value))
  {
    var rest := "\"" + (value + ("\"" + tail));
    SpanLenPrefix(w3, rest, IsSpace);
    assert (w3 + rest)[|w3|..] == rest;
    assert rest[1..] == value + ("\"" + tail);
    MatchQuotedComplete(key, value, tail);
  }

  lemma MatchEqualsComplete(key: string, w2: string, w3: string, value: string, tail: string)
    requires AllSatisfy(w2, IsSpace) && AllSatisfy(w3, IsSpace) && AllSatisfy(value, NotQuote)
    ensures MatchEquals(key, w2 + ("=" + (w3 + ("\"" + (value + ("\"" + tail)))))) == Some((key, value))
  {
    var rest := "=" + (w3 + ("\"" + (value + ("\"" + tail))));
    SpanLenPrefix(w2, rest, IsSpace);
    assert (w2 + rest)[|w2|..] == rest;
    assert rest[1..] == w3 + ("\"" + (value + ("\"" + tail)));
    MatchValueComplete(key, w3, value, tail);
  }

  lemma MatchKeyComplete(key: string, w2: string, w3: string, value: string, tail: string)
    requires IsIdentifier(key)
    requires AllSatisfy(w2, IsSpace) && AllSatisfy(w3, IsSpace) && AllSatisfy(value, NotQuote)
    ensures MatchKey(key + (w2 + ("=" + (w3 + ("\"" + (value + ("\"" + tail))))))) == Some((key, value))
  {
    var rest := w2 + ("=" + (w3 + ("\"" + (value + ("\"" + tail)))));
    var s := key + rest;
    assert rest == [] || !IsIdentChar(rest[0]) by {
      if w2 != [] { assert rest[0] == w2[0] && IsSpace(w2[0]); }
      else { assert rest[0] == '='; }
    }
    assert s[1..] == key[1..] + rest;
    SpanLenPrefix(key[1..], rest, IsIdentChar);
    assert s[..|key|] == key && s[|key|..] == rest;
    MatchEqualsComplete(key, w2, w3, value, tail);
  }

  /** Every line of the accepted shape is matched, with its own key and value. */
  lemma MatchAssignmentComplete(w1: string, key: string, w2: string, w3: string, value: string, tail: string)
    requires AssignmentParts(w1, key, w2, w3, value)
    ensures MatchAssignment(Assignment(w1, key, w2, w3, value, tail)) == Some((key, value))
  {
    var rest := key + (w2 + ("=" + (w3 + ("\"" + (value + ("\"" + tail))))));
    SpanLenPrefix(w1, rest, IsSpace);
    assert (w1 + rest)[|w1|..] == rest;
    MatchKeyComplete(key, w2, w3, value, tail);
  }

  // Where each greedy part of a successful match stops: the blanks around the
  // `=` and the text left after the closing quote, stage by stage.

  function QuotedTail(key: string, s: string): string
    requires MatchQuoted(key, s).Some?
  {
    s[|MatchQuoted(key, s).value.1| + 1..]
  }

  function ValueBlanks(key: string, s: string): (string, string)
    requires MatchValue(key, s).Some?
  {
    var c := SpanLen(s, IsSpace);
    (s[..c], QuotedTail(key, s[c + 1..]))
  }

  function EqualsBlanks(key: string, s: string): (string, string, string)
    requires MatchEquals(key, s).Some?
  {
    var b := SpanLen(s, IsSpace);
    var p := ValueBlanks(key, s[b + 1..]);
    (s[..b], p.0, p.1)
  }

  function KeyBlanks(s: string): (string, string, string)
    requires MatchKey(s).Some?
  {
    var key := MatchKey(s).value.0;
    assert |key| <= |s| && MatchEquals(key, s[|key|..]) == MatchKey(s) by {
      MatchKeyStep(s);
    }
    EqualsBlanks(key, s[|key|..])
  }

  /** The blanks and the trailing text around the groups of a matched line. */
  function Blanks(line: string): (string, string, string, string)
    requires MatchAssignment(line).Some?
  {
    var a := SpanLen(line, IsSpace);
    var p := KeyBlanks(line[a..]);
    (line[..a], p.0, p.1, p.2)
  }

  /** A `[^"]*"` match splits its input at the first quote. */
  lemma MatchQuotedSound(key: string, s: string)
    requires MatchQuoted(key, s).Some?
    ensures s == MatchQuoted(key, s).value.1 + ("\"" + QuotedTail(key, s))
  {
  }

  lemma {:induction false} MatchValueSound(key: string, s: string)
    requires MatchValue(key, s).Some?
    ensures var p, v := ValueBlanks(key, s), MatchValue(key, s).value.1;
            AllSatisfy(p.0, IsSpace) && s == p.0 + ("\"" + (v + ("\"" + p.1)))
  {
    var c := SpanLen(s, IsSpace);
    var t := s[c + 1..];
    assert MatchValue(key, s) == MatchQuoted(key, t);
    assert ValueBlanks(key, s) == (s[..c], QuotedTail(key, t));
    SplitAround(s, c);
    MatchQuotedSound(key, t);
  }

  lemma {:induction false} MatchEqualsSound(key: string, s: string)
    requires MatchEquals(key, s).Some?
    ensures var p, v := EqualsBlanks(key, s), MatchEquals(key, s).value.1;
            AllSatisfy(p.0, IsSpace) && AllSatisfy(p.1, IsSpace) &&
            s == p.0 + ("=" + (p.1 + ("\"" + (v + ("\"" + p.2)))))
  {
    var b := SpanLen(s, IsSpace);
    var t := s[b + 1..];
    assert MatchEquals(key, s) == MatchValue(key, t);
    assert EqualsBlanks(key, s) == (s[..b], ValueBlanks(key, t).0, ValueBlanks(key, t).1);
    SplitAround(s, b);
    MatchValueSound(key, t);
  }

  /** The key group is a prefix of the input and the rest is matched from there. */
  lemma {:induction false} MatchKeyStep(s: string)
    requires MatchKey(s).Some?
    ensures var key := MatchKey(s).value.0;
            |key| <= |s| && s == key + s[|key|..] && MatchEquals(key, s[|key|..]) == MatchKey(s)
  {
    var n := 1 + SpanLen(s[1..], IsIdentChar);
    var key, rest := s[..n], s[n..];
    SplitAt(s, n);
    assert MatchKey(s) == MatchEquals(key, rest);
    assert MatchKey(s).value.0 == key && |key| == n;
  }

  lemma {:induction false} MatchKeySound(s: string)
    requires MatchKey(s).Some?
    ensures var p, kv := KeyBlanks(s), MatchKey(s).value;
            AllSatisfy(p.0, IsSpace) && AllSatisfy(p.1, IsSpace) &&
            s == kv.0 + (p.0 + ("=" + (p.1 + ("\"" + (kv.1 + ("\"" + p.2))))))
  {
    var key := MatchKey(s).value.0;
    MatchKeyStep(s);
    MatchEqualsSound(key, s[|key|..]);
  }

  /** Every matched line has the accepted shape, with the key and value found. */
  lemma {:induction false} MatchAssignmentSound(line: string)
    requires MatchAssignment(line).Some?
    ensures var kv, p := MatchAssignment(line).value, Blanks(line);
            AssignmentParts(p.0, kv.0, p.1, p.2, kv.1) && line == Assignment(p.0, kv.0, p.1, p.2, kv.1, p.3)
  {
    var a := SpanLen(line, IsSpace);
    var rest := line[a..];
    var kv, p := MatchKey(rest).value, KeyBlanks(rest);
    assert MatchAssignment(line).value == kv && Blanks(line) == (line[..a], p.0, p.1, p.2);
    MatchKeySound(rest);
    Compose(line, a, kv.0, p.0, p.1, kv.1, p.2);
  }

  lemma Compose(line: string, a: nat, key: string, w2: string, w3: string, value: string, tail: string)
    requires a <= |line| && line[a..] == key + (w2 + ("=" + (w3 + ("\"" + (value + ("\"" + tail))))))
    ensures line == Assignment(line[..a], key, w2, w3, value, tail)
  {
    assert line == line[..a] + line[a..];
  }

  // ---------------------------------------------------------------------------
  // `load_sql_defaults_from_tfvars`

  const ServerSuffix: string := ".database.windows.net"

  /** The defaults derived from the tfvars values: the server only when its
      name is non-empty, the three others whenever their key is present. */
  function SqlDefaults(values: map<string, string>): (d: map<string, string>)
    ensures d.Keys <= {"server", "username", "password", "database"}
    ensures "server" in d <==> "sql_server_name" in values && values["sql_server_name"] != ""
    ensures "server" in d ==> d["server"] == values["sql_server_name"] + ServerSuffix
    ensures "username" in d <==> "sql_admin_login" in values
    ensures "username" in d ==> d["username"] == values["sql_admin_login"]
    ensures "password" in d <==> "sql_admin_password" in values
    ensures "password" in d ==> d["password"] == values["sql_admin_password"]
    ensures "database" in d <==> "sql_database_name" in values
    ensures "database" in d ==> d["database"] == values["sql_database_name"]
  {
    var d := ServerDefault(values);
    CopyKey(CopyKey(CopyKey(d, values, "sql_admin_login", "username"),
      values, "sql_admin_password", "password"), values, "sql_database_name", "database")
  }

  /** `defaults["server"] = f"{server_name}.database.windows.net"` when the name is truthy. */
  function ServerDefault(values: map<string, string>): map<string, string>
  {
    if "sql_server_name" in values && values["sql_server_name"] != ""
    then map["server" := values["sql_server_name"] + ServerSuffix] else map[]
  }

  /** `if src in values: defaults[dst] = values[src]` */
  function CopyKey(d: map<string, string>, values: map<string, string>, src: string, dst: string): map<string, string>
  {
    if src in values then d[dst := values[src]] else d
  }

  /** `load_sql_defaults_from_tfvars`: `file` is the tfvars file's lines, or
      `None` when it does not exist. */
  method LoadSqlDefaultsFromTfvars(file: Option<seq<string>>) returns (defaults: map<string, string>)
    ensures file.None? ==> defaults == map[]
    ensures file.Some? ==> defaults == SqlDefaults(CollectPairs(file.value, MatchAssignment))
  {
    if file.None? {
      return map[];
    }
    var values := ReadAssignments(file.value, MatchAssignment);
    defaults := map[];
    if "sql_server_name" in values && values["sql_server_name"] != "" {
      defaults := defaults["server" := values["sql_server_name"] + ServerSuffix];
    }
    defaults := CopyValue(defaults, values, "sql_admin_login", "username");
    defaults := CopyValue(defaults, values, "sql_admin_password", "password");
    defaults := CopyValue(defaults, values, "sql_database_name", "database");
  }

  /** One `if src in values: defaults[dst] = values[src]` step. */
  method CopyValue(d: map<string, string>, values: map<string, string>, src: string, dst: string)
    returns (d': map<string, string>)
    ensures d' == CopyKey(d, values, src, dst)
  {
    d' := d;
    if src in values {
      d' := d[dst := values[src]];
    }
  }

  /** The value taken for a tfvars key is the one on the last line that assigns it. */
  lemma LastAssignmentWins(lines: seq<string>, i: nat)
    requires i < |lines| && MatchAssignment(lines[i]).Some?
    requires forall j :: i < j < |lines| && MatchAssignment(lines[j]).Some? ==>
               MatchAssignment(lines[j]).value.0 != MatchAssignment(lines[i]).value.0
    ensures var kv := MatchAssignment(lines[i]).value;
            kv.0 in CollectPairs(lines, MatchAssignment) && CollectPairs(lines, MatchAssignment)[kv.0] == kv.1
  {
    CollectPairsLastWins(lines, MatchAssignment, i);
  }

  /** A key gets a value only from a line of the accepted shape. */
  lemma OnlyAssignmentsRecorded(lines: seq<string>, key: string)
    requires key in CollectPairs(lines, MatchAssignment)
    ensures exists i :: 0 <= i < |lines| && MatchAssignment(lines[i]).Some? && MatchAssignment(lines[i]).value.0 == key
  {
    CollectPairsKeys(lines, MatchAssignment, key);
  }

  // ---------------------------------------------------------------------------
  // Precedence in `main`

  /** The four connection parameters as `main` holds them after parsing. */
  datatype SqlArgs = SqlArgs(server: Option<string>, database: Option<string>, username: Option<string>, password: Option<string>)

  /** A command-line option whose default is an environment variable
      (`default=os.getenv(var)`). */
  function OptionOrEnv(cli: Option<string>, env: Env, variable: string): (r: Option<string>)
    ensures cli.Some? ==> r == cli
    ensures cli.None? ==> r == GetEnv(env, variable)
  {
    if cli.Some? then cli else GetEnv(env, variable)
  }

  /** The parsed options: `--database` defaults to `AZURE_SQL_DATABASE` or
      `projet_data_eng`, the others to their variable alone. */
  function ParsedArgs(cli: SqlArgs, env: Env): (r: SqlArgs)
    ensures r.database.Some?
  {
    SqlArgs(
      OptionOrEnv(cli.server, env, "AZURE_SQL_SERVER"),
      Some(if cli.database.Some? then cli.database.value else GetEnvOr(env, "AZURE_SQL_DATABASE", "projet_data_eng")),
      OptionOrEnv(cli.username, env, "AZURE_SQL_USERNAME"),
      OptionOrEnv(cli.password, env, "AZURE_SQL_PASSWORD"))
  }

  /** The tfvars fallbacks of `main`: server, username and password are replaced
      when falsy, the database only when it is `None` and the tfvars value is
      truthy. */
  function ApplyTfvars(args: SqlArgs, tf: map<string, string>): (r: SqlArgs)
    ensures Truthy(args.server) ==> r.server == args.server
    ensures !Truthy(args.server) ==> r.server == GetEnv(tf, "server")
    ensures Truthy(args.username) ==> r.username == args.username
    ensures !Truthy(args.username) ==> r.username == GetEnv(tf, "username")
    ensures Truthy(args.password) ==> r.password == args.password
    ensures !Truthy(args.password) ==> r.password == GetEnv(tf, "password")
    ensures args.database.Some? ==> r.database == args.database
    ensures args.database.None? && Truthy(GetEnv(tf, "database")) ==> r.database == GetEnv(tf, "database")
    ensures args.database.None? && !Truthy(GetEnv(tf, "database")) ==> r.database == None
  {
    SqlArgs(
      if Truthy(args.server) then args.server else GetEnv(tf, "server"),
      if args.database.None? && Truthy(GetEnv(tf, "database")) then GetEnv(tf, "database") else args.database,
      if Truthy(args.username) then args.username else GetEnv(tf, "username"),
      if Truthy(args.password) then args.password else GetEnv(tf, "password"))
  }

  /** The names of the falsy parameters among server, username and password,
      in that order. */
  function MissingParams(args: SqlArgs): (r: seq<string>)
    ensures "server" in r <==> !Truthy(args.server)
    ensures "username" in r <==> !Truthy(args.username)
    ensures "password" in r <==> !Truthy(args.password)
    ensures "database" !in r
    ensures Distinct(r)
  {
    (if Truthy(args.server) then [] else ["server"])
    + (if Truthy(args.username) then [] else ["username"])
    + (if Truthy(args.password) then [] else ["password"])
  }

  datatype SqlParamsError = MissingSqlParams(names: seq<string>)

  /** The resolution in `main`: the parameters after the tfvars fallbacks, or
      the error naming what is still missing. */
  function ResolveSqlArgs(args: SqlArgs, tf: map<string, string>): (r: Result<SqlArgs, SqlParamsError>)
    ensures r.Ok? <==> MissingParams(ApplyTfvars(args, tf)) == []
    ensures r.Ok? ==> r.value == ApplyTfvars(args, tf)
    ensures r.Err? ==> r.error.names == MissingParams(ApplyTfvars(args, tf))
  {
    var resolved := ApplyTfvars(args, tf);
    var missing := MissingParams(resolved);
    if missing == [] then Ok(resolved) else Err(MissingSqlParams(missing))
  }

  /** A truthy value from the command line or the environment always beats
      tfvars, and a successful resolution has all three credentials truthy. */
  lemma CliBeatsTfvars(args: SqlArgs, tf: map<string, string>)
    ensures Truthy(args.server) && Truthy(args.username) && Truthy(args.password) ==>
              && ResolveSqlArgs(args, tf).Ok?
              && ResolveSqlArgs(args, tf).value.server == args.server
              && ResolveSqlArgs(args, tf).value.username == args.username
              && ResolveSqlArgs(args, tf).value.password == args.password
    ensures ResolveSqlArgs(args, tf).Ok? ==>
              var v := ResolveSqlArgs(args, tf).value;
              Truthy(v.server) && Truthy(v.username) && Truthy(v.password)
  {
    var r := ApplyTfvars(args, tf);
    if !Truthy(r.server) { assert "server" in MissingParams(r); }
    if !Truthy(r.username) { assert "username" in MissingParams(r); }
    if !Truthy(r.password) { assert "password" in MissingParams(r); }
  }

  /** As the options are parsed, `--database` always has a value, so the
      tfvars database is never used. */
  lemma TfvarsDatabaseUnused(cli: SqlArgs, env: Env, tf: map<string, string>)
    ensures ApplyTfvars(ParsedArgs(cli, env), tf).database == ParsedArgs(cli, env).database
  {
  }
}
