/** `ingestion/Scraping/scrape_taux.py`: the rate barometer scraper. Each
    region's answer is checked, the three rates of every loan duration are
    looked up under their keys, the update date is reformatted, and one row is
    produced per region and duration. The HTTP GET and `strptime` are
    function-typed oracles; rates stay decimal strings (no float parsing). */
module ScrapeTaux {
  import opened Common
  import opened Json

  /** Loan durations, in years, in the order the rows use them. */
  const Durations: seq<nat> := [7, 10, 15, 20, 25]

  /** Region codes and names, in the order of the `REGIONS` dictionary. */
  const Regions: seq<(string, string)> := [
    ("0", "National"),
    ("2", "Region Nord"),
    ("3", "Region Ouest"),
    ("4", "Region Sud Ouest"),
    ("5", "Region Sud Est"),
    ("6", "Region Rhone Alpes"),
    ("7", "Region Est"),
    ("8", "PARIS IDF")
  ]

  datatype ScrapeError =
    | HttpError(region: string, reason: string)  // the GET or `raise_for_status` failed
    | NotADict(region: string)                   // `.get` on a payload or entry that is no dictionary
    | NoData(region: string)                     // `ValueError`: `res` missing or empty
    | NotAList(region: string)                   // `res[0]` on a value that is no list or string
    | MissingRates(duration: nat)                // `KeyError`: a rate of the duration is missing
    | NotAString(key: string)                    // `.replace` on a rate that is no string
    | DateNotAString(region: string)             // `strptime` on a date that is no string
    | MissingSmtpVariable(variable: string)      // `ValueError`: the password variable is not set

  // ---------------------------------------------------------------------------
  // Region answer

  /** `fetch_region_data` after the GET: the first element of `res`, which
      must be present and non-empty. */
  function FirstResult(code: string, payload: Value): (r: Result<Value, ScrapeError>)
    ensures !payload.Obj? ==> r == Err(NotADict(code))
    ensures payload.Obj? && (Get(payload, "res").None? || !ValueTruthy(Get(payload, "res").value)) ==> r == Err(NoData(code))
    ensures payload.Obj? && Get(payload, "res").Some? && Get(payload, "res").value.Arr? && Get(payload, "res").value.items != []
            ==> r == Ok(Get(payload, "res").value.items[0])
    ensures r.Ok? ==> payload.Obj? && Get(payload, "res").Some? && ValueTruthy(Get(payload, "res").value)
  {
    if !payload.Obj? then Err(NotADict(code))
    else
      match Get(payload, "res")
      case None => Err(NoData(code))
      case Some(res) =>
        if !ValueTruthy(res) then Err(NoData(code))
        else match res
          case Arr(items) => Ok(items[0])
          case Str(s) => Ok(Str([s[0]]))
          case _ => Err(NotAList(code))
  }

  /** `fetch_region_data`: the GET for one region code, then its first result. */
  function FetchRegionData(code: string, fetch: string -> Result<Value, string>): (r: Result<Value, ScrapeError>)
    ensures fetch(code).Err? ==> r == Err(HttpError(code, fetch(code).error))
    ensures fetch(code).Ok? ==> r == FirstResult(code, fetch(code).value)
  {
    match fetch(code)
    case Err(reason) => Err(HttpError(code, reason))
    case Ok(payload) => FirstResult(code, payload)
  }

  // ---------------------------------------------------------------------------
  // Rate keys

  /** The key of a rate: its letter (`e` excellent, `b` very good, `m` good),
      the duration, then `f`. */
  function RateKey(letter: char, duration: nat): (r: string)
    ensures |r| >= 3 && r[0] == letter && r[|r| - 1] == 'f'
  {
    [letter] + DecimalString(duration) + "f"
  }

  /** Reads a key back into its letter and duration. */
  function ParseRateKey(key: string): Option<(char, int)> {
    if |key| >= 3 && key[|key| - 1] == 'f' then
      match ParseInt(key[1..|key| - 1])
      case Some(d) => Some((key[0], d))
      case None => None
    else None
  }

  lemma RateKeyRoundTrip(letter: char, duration: nat)
    ensures ParseRateKey(RateKey(letter, duration)) == Some((letter, duration as int))
  {
    var k := RateKey(letter, duration);
    assert k[1..|k| - 1] == DecimalString(duration);
    NonNegativeRoundTrip(duration);
  }

  /** Different letters or durations never share a key. */
  lemma RateKeysDistinct(l1: char, d1: nat, l2: char, d2: nat)
    requires (l1, d1) != (l2, d2)
    ensures RateKey(l1, d1) != RateKey(l2, d2)
  {
    RateKeyRoundTrip(l1, d1);
    RateKeyRoundTrip(l2, d2);
  }

  // ---------------------------------------------------------------------------
  // Rates

  /** The three rates of a duration, with `,` turned into `.`. */
  datatype Rates = Rates(excellent: string, veryGood: string, good: string)

  /** `raw_entry.get(key)` is not `None`: the key is there with a non-null value. */
  predicate HasRate(entry: Value, key: string)
    requires entry.Obj?
  {
    Get(entry, key).Some? && !Get(entry, key).value.Null?
  }

  /** `to_float` up to the float conversion: the decimal comma becomes a dot. */
  function DecimalText(key: string, v: Value): (r: Result<string, ScrapeError>)
    ensures v.Str? <==> r.Ok?
    ensures v.Str? ==> |r.value| == |v.s| && ',' !in r.value
    ensures !v.Str? ==> r == Err(NotAString(key))
  {
    match v
    case Str(s) => Ok(ReplaceChar(s, ',', "."))
    case _ => Err(NotAString(key))
  }

  /** `extract_rates` (keys and errors): the rates under `e{d}f`, `b{d}f`
      and `m{d}f`, or `KeyError` when any of the three is missing. */
  function ExtractRates(region: string, entry: Value, duration: nat): (r: Result<Rates, ScrapeError>)
    ensures r.Ok? ==> entry.Obj? && HasRate(entry, RateKey('e', duration))
                      && HasRate(entry, RateKey('b', duration)) && HasRate(entry, RateKey('m', duration))
    ensures r.Ok? ==> ',' !in r.value.excellent && ',' !in r.value.veryGood && ',' !in r.value.good
  {
    if !entry.Obj? then Err(NotADict(region))
    else
      var ek := RateKey('e', duration);
      var bk := RateKey('b', duration);
      var mk := RateKey('m', duration);
      if !(HasRate(entry, ek) && HasRate(entry, bk) && HasRate(entry, mk)) then Err(MissingRates(duration))
      else
        match DecimalText(ek, Get(entry, ek).value)
        case Err(e) => Err(e)
        case Ok(excellent) =>
          match DecimalText(bk, Get(entry, bk).value)
          case Err(e) => Err(e)
          case Ok(veryGood) =>
            match DecimalText(mk, Get(entry, mk).value)
            case Err(e) => Err(e)
            case Ok(good) => Ok(Rates(excellent, veryGood, good))
  }

  /** The rates are read exactly when the entry is a dictionary holding all
      three keys of the duration with string values; `KeyError` exactly when
      one of the three is missing or null. */
  lemma ExtractRatesMeaning(region: string, entry: Value, duration: nat)
    ensures var r := ExtractRates(region, entry, duration);
            && (!entry.Obj? ==> r == Err(NotADict(region)))
            && (entry.Obj? ==>
                  (r == Err(MissingRates(duration)) <==>
                     !(HasRate(entry, RateKey('e', duration)) && HasRate(entry, RateKey('b', duration)) && HasRate(entry, RateKey('m', duration)))))
            && (r.Ok? ==>
                  && DecimalText(RateKey('e', duration), Get(entry, RateKey('e', duration)).value) == Ok(r.value.excellent)
                  && DecimalText(RateKey('b', duration), Get(entry, RateKey('b', duration)).value) == Ok(r.value.veryGood)
                  && DecimalText(RateKey('m', duration), Get(entry, RateKey('m', duration)).value) == Ok(r.value.good))
  {
  }

  // ---------------------------------------------------------------------------
  // Update date

  /** A calendar date as `strptime` returns it. */
  datatype Date = Date(year: nat, month: nat, day: nat)

  /** `%d` and `%m`: at least two digits, zero-padded. */
  function Pad2(n: nat): (r: string)
    ensures |r| >= 2 && AllSatisfy(r, IsDigit)
  {
    if n < 10 then "0" + DecimalString(n) else DecimalString(n)
  }

  /** `strftime("%d/%m/%Y")`: the text reads back as the same date. */
  function FormatDmy(d: Date): (r: string)
    ensures ParseDmy(r) == Some(d)
  {
    var dd := Pad2(d.day);
    var mm := Pad2(d.month);
    var yy := DecimalString(d.year);
    Pad2NoSlash(d.day);
    Pad2NoSlash(d.month);
    CutConcat(dd, '/', mm + ("/" + yy));
    CutConcat(mm, '/', yy);
    Pad2RoundTrip(d.day);
    Pad2RoundTrip(d.month);
    NonNegativeRoundTrip(d.year);
    dd + ("/" + (mm + ("/" + yy)))
  }

  /** Reads `DD/MM/YYYY` back into a date. */
  function ParseDmy(s: string): Option<Date> {
    match Cut(s, '/')
    case None => None
    case Some((dd, rest)) =>
      match Cut(rest, '/')
      case None => None
      case Some((mm, yy)) =>
        match (ParseInt(dd), ParseInt(mm), ParseInt(yy))
        case (Some(d), Some(m), Some(y)) =>
          if d >= 0 && m >= 0 && y >= 0 then Some(Date(y, m, d)) else None
        case _ => None
  }

  lemma Pad2RoundTrip(n: nat)
    ensures ParseInt(Pad2(n)) == Some(n)
  {
    NonNegativeRoundTrip(n);
    if n < 10 {
      var s := Pad2(n);
      assert s == ['0', DigitChar(n)];
      assert s[..1] == "0";
      assert DigitsValue(s) == DigitsValue(s[..1]) * 10 + DigitValue(s[1]);
    }
  }

  lemma Pad2NoSlash(n: nat)
    ensures '/' !in Pad2(n)
  {
    var s := Pad2(n);
    assert forall i :: 0 <= i < |s| ==> IsDigit(s[i]);
  }

  /** The "Date de mise a jour" cell: `None` for an absent or falsy date; a
      date `strptime` accepts as `%Y-%m-%d` is rewritten `DD/MM/YYYY`; any
      other string is kept as it is. */
  function DateCell(region: string, entry: Value, strptime: string -> Option<Date>): (r: Result<Option<string>, ScrapeError>)
    ensures !entry.Obj? ==> r == Err(NotADict(region))
    ensures entry.Obj? && (Get(entry, "date").None? || !ValueTruthy(Get(entry, "date").value)) ==> r == Ok(None)
    ensures entry.Obj? && Get(entry, "date").Some? && Get(entry, "date").value.Str? && Get(entry, "date").value.s != "" ==>
              var s := Get(entry, "date").value.s;
              r == Ok(Some(if strptime(s).Some? then FormatDmy(strptime(s).value) else s))
    ensures r.Ok? && r.value.Some? ==> r.value.value != ""
  {
    if !entry.Obj? then Err(NotADict(region))
    else
      match Get(entry, "date")
      case None => Ok(None)
      case Some(raw) =>
        if !ValueTruthy(raw) then Ok(None)
        else match raw
          case Str(s) =>
            (match strptime(s)
             case Some(d) =>
               assert |Pad2(d.day)| >= 2;
               Ok(Some(FormatDmy(d)))
             case None => Ok(Some(s)))
          case _ => Err(DateNotAString(region))
  }

  // ---------------------------------------------------------------------------
  // Rows

  /** One row of the dataset. */
  datatype Row = Row(region: string, duration: nat, date: Option<string>, rates: Rates)

  /** Rows computed before a remaining result. */
  function Then(rows: seq<Row>, r: Result<seq<Row>, ScrapeError>): Result<seq<Row>, ScrapeError> {
    match r
    case Ok(more) => Ok(rows + more)
    case Err(e) => Err(e)
  }

  /** Rows before rows before a result are their concatenation before it. */
  lemma ThenThen(a: seq<Row>, b: seq<Row>, r: Result<seq<Row>, ScrapeError>)
    ensures Then(a, Then(b, r)) == Then(a + b, r)
  {
    if r.Ok? {
      AppendAssoc(a, b, r.value);
    }
  }

  lemma ThenNothing(r: Result<seq<Row>, ScrapeError>)
    ensures Then([], r) == r
  {
    if r.Ok? {
      assert [] + r.value == r.value;
    }
  }

  /** The rows of each item in turn, concatenated, stopping at the first
      item that raises: the shape of both loops of `build_dataset`. */
  function Gather<T>(xs: seq<T>, f: T -> Result<seq<Row>, ScrapeError>): (r: Result<seq<Row>, ScrapeError>)
    ensures r.Err? ==> exists i :: 0 <= i < |xs| && f(xs[i]) == Err(r.error)
    decreases |xs|
  {
    if xs == [] then Ok([])
    else
      match f(xs[0])
      case Err(e) => Err(e)
      case Ok(rows) => Then(rows, Gather(xs[1..], f))
  }

  /** The gathered rows start with those of the first item. */
  lemma GatherStep<T>(xs: seq<T>, f: T -> Result<seq<Row>, ScrapeError>)
    requires xs != [] && Gather(xs, f).Ok?
    ensures f(xs[0]).Ok? && Gather(xs[1..], f).Ok?
    ensures Gather(xs, f).value == f(xs[0]).value + Gather(xs[1..], f).value
  {
  }

  /** When every item gives `k` rows, row `k * i + j` is row `j` of item `i`. */
  lemma {:induction false} GatherShape<T>(xs: seq<T>, f: T -> Result<seq<Row>, ScrapeError>, k: nat, i: nat, j: nat)
    requires Gather(xs, f).Ok?
    requires forall x :: x in xs && f(x).Ok? ==> |f(x).value| == k
    ensures |Gather(xs, f).value| == k * |xs|
    ensures i < |xs| && j < k ==>
              f(xs[i]).Ok? && k * i + j < |Gather(xs, f).value| && Gather(xs, f).value[k * i + j] == f(xs[i]).value[j]
    decreases |xs|
  {
    if xs != [] {
      GatherStep(xs, f);
      assert xs[0] in xs;
      assert forall x :: x in xs[1..] ==> x in xs;
      if 0 < i < |xs| {
        GatherShape(xs[1..], f, k, i - 1, j);
        assert xs[i] == xs[1..][i - 1];
        assert k * i + j == k + (k * (i - 1) + j);
      } else {
        GatherShape(xs[1..], f, k, 0, j);
      }
      assert k * |xs| == k + k * (|xs| - 1);
    }
  }

  /** When some item raises, the gathered result is the error of the first
      item that raises. */
  lemma {:induction false} GatherFirstError<T>(xs: seq<T>, f: T -> Result<seq<Row>, ScrapeError>)
    ensures var fails := (x: T) => f(x).Err?;
            match FirstIndex(xs, fails)
            case None => Gather(xs, f).Ok?
            case Some(n) => Gather(xs, f) == Err(f(xs[n]).error)
    decreases |xs|
  {
    if xs != [] {
      GatherFirstError(xs[1..], f);
    }
  }

  /** The row of one duration, or the error reading its rates. */
  function DurationRow(code: string, name: string, entry: Value, date: Option<string>): nat -> Result<seq<Row>, ScrapeError> {
    (d: nat) => match ExtractRates(code, entry, d)
         case Err(e) => Err(e)
         case Ok(rates) => Ok([Row(name, d, date, rates)])
  }

  /** One region: its answer, its date, then one row per duration. */
  function RegionResult(code: string, name: string, fetch: string -> Result<Value, string>,
                        strptime: string -> Option<Date>): (r: Result<seq<Row>, ScrapeError>)
    ensures FetchRegionData(code, fetch).Err? ==> r == Err(FetchRegionData(code, fetch).error)
    ensures r.Ok? ==> FetchRegionData(code, fetch).Ok? && DateCell(code, FetchRegionData(code, fetch).value, strptime).Ok?
  {
    match FetchRegionData(code, fetch)
    case Err(e) => Err(e)
    case Ok(entry) =>
      match DateCell(code, entry, strptime)
      case Err(e) => Err(e)
      case Ok(date) => Gather(Durations, DurationRow(code, name, entry, date))
  }

  /** The rows of one region of the table, given by its code and name. */
  function RegionRows(fetch: string -> Result<Value, string>, strptime: string -> Option<Date>): ((string, string)) -> Result<seq<Row>, ScrapeError> {
    (region: (string, string)) => RegionResult(region.0, region.1, fetch, strptime)
  }

  /** What `build_dataset` returns, or the error it raises. */
  function Dataset(fetch: string -> Result<Value, string>, strptime: string -> Option<Date>): (r: Result<seq<Row>, ScrapeError>)
    ensures r.Err? ==> exists i :: 0 <= i < |Regions| && RegionResult(Regions[i].0, Regions[i].1, fetch, strptime) == Err(r.error)
  {
    Gather(Regions, RegionRows(fetch, strptime))
  }

  /** A region without error gives one row per duration, in order, each
      with the region's name and date and the rates read for that duration. */
  lemma RegionResultShape(code: string, name: string, fetch: string -> Result<Value, string>,
                          strptime: string -> Option<Date>, j: nat)
    requires RegionResult(code, name, fetch, strptime).Ok?
    ensures |RegionResult(code, name, fetch, strptime).value| == |Durations|
    ensures j < |Durations| ==>
              var entry := FetchRegionData(code, fetch).value;
              && ExtractRates(code, entry, Durations[j]).Ok?
              && RegionResult(code, name, fetch, strptime).value[j]
                 == Row(name, Durations[j], DateCell(code, entry, strptime).value, ExtractRates(code, entry, Durations[j]).value)
  {
    var entry := FetchRegionData(code, fetch).value;
    var date := DateCell(code, entry, strptime).value;
    var f := DurationRow(code, name, entry, date);
    forall d | d in Durations && f(d).Ok?
      ensures |f(d).value| == 1
    {
    }
    GatherShape(Durations, f, 1, j, 0);
  }

  /** A dataset without error has five rows per region: row `5 * i + j` is
      for region `i` and duration `j`; 8 regions times 5 durations, 40 rows. */
  lemma DatasetShape(fetch: string -> Result<Value, string>, strptime: string -> Option<Date>, i: nat, j: nat)
    requires Dataset(fetch, strptime).Ok?
    ensures |Dataset(fetch, strptime).value| == 40
    ensures i < |Regions| && j < |Durations| ==>
              Dataset(fetch, strptime).value[5 * i + j].region == Regions[i].1
              && Dataset(fetch, strptime).value[5 * i + j].duration == Durations[j]
  {
    var f := RegionRows(fetch, strptime);
    forall x | x in Regions && f(x).Ok?
      ensures |f(x).value| == 5
    {
      RegionResultShape(x.0, x.1, fetch, strptime, 0);
    }
    GatherShape(Regions, f, 5, i, j);
    if i < |Regions| && j < |Durations| {
      RegionResultShape(Regions[i].0, Regions[i].1, fetch, strptime, j);
    }
  }

  /** `build_dataset`: for each region, fetch its entry and its date, then
      append one row per duration. */
  method BuildDataset(fetch: string -> Result<Value, string>, strptime: string -> Option<Date>)
    returns (r: Result<seq<Row>, ScrapeError>)
    ensures r == Dataset(fetch, strptime)
  {
    r := GatherRegions(Regions, fetch, strptime);
  }

  /** The region loop of `build_dataset` over a list of regions. */
  method GatherRegions(regions: seq<(string, string)>, fetch: string -> Result<Value, string>, strptime: string -> Option<Date>)
    returns (r: Result<seq<Row>, ScrapeError>)
    ensures r == Gather(regions, RegionRows(fetch, strptime))
  {
    ghost var f := RegionRows(fetch, strptime);
    var rows: seq<Row> := [];
    var i := 0;
    assert regions[0..] == regions;
    ThenNothing(Gather(regions, f));
    while i < |regions|
      invariant 0 <= i <= |regions|
      invariant Gather(regions, f) == Then(rows, Gather(regions[i..], f))
    {
      var (code, name) := regions[i];
      SuffixStep(regions, i);
      var regionRows := RegionPass(code, name, fetch, strptime);
      assert f(regions[i]) == regionRows;
      if regionRows.Err? {
        return Err(regionRows.error);
      }
      ThenThen(rows, regionRows.value, Gather(regions[i + 1..], f));
      rows := rows + regionRows.value;
      i := i + 1;
    }
    assert rows + [] == rows;
    return Ok(rows);
  }

  /** One pass of the region loop of `build_dataset`: fetch the region's
      entry and its date, then one row per duration. */
  method RegionPass(code: string, name: string, fetch: string -> Result<Value, string>, strptime: string -> Option<Date>)
    returns (r: Result<seq<Row>, ScrapeError>)
    ensures r == RegionResult(code, name, fetch, strptime)
  {
    var entry := FetchRegionData(code, fetch);
    if entry.Err? {
      return Err(entry.error);
    }
    var date := DateCell(code, entry.value, strptime);
    if date.Err? {
      return Err(date.error);
    }
    r := DurationRows(code, name, entry.value, date.value, Durations);
  }

  /** The inner loop of `build_dataset`: one row per duration for a region
      whose entry and date are known. */
  method DurationRows(code: string, name: string, entry: Value, date: Option<string>, durations: seq<nat>)
    returns (r: Result<seq<Row>, ScrapeError>)
    ensures r == Gather(durations, DurationRow(code, name, entry, date))
  {
    ghost var f := DurationRow(code, name, entry, date);
    var rows: seq<Row> := [];
    var j := 0;
    assert durations[0..] == durations;
    ThenNothing(Gather(durations, f));
    while j < |durations|
      invariant 0 <= j <= |durations|
      invariant Gather(durations, f) == Then(rows, Gather(durations[j..], f))
    {
      SuffixStep(durations, j);
      var rates := ExtractRates(code, entry, durations[j]);
      if rates.Err? {
        return Err(rates.error);
      }
      var row := Row(name, durations[j], date, rates.value);
      assert f(durations[j]) == Ok([row]);
      ThenThen(rows, [row], Gather(durations[j + 1..], f));
      rows := rows + [row];
      j := j + 1;
    }
    assert rows + [] == rows;
    return Ok(rows);
  }

  // ---------------------------------------------------------------------------
  // E-mail

  /** `resolve_smtp_password`: a named variable wins and must be set (even
      to the empty string); otherwise a non-empty `--smtp-password`;
      otherwise no password. */
  function ResolveSmtpPassword(passwordEnv: Option<string>, password: Option<string>, env: Env): (r: Result<Option<string>, ScrapeError>)
    ensures Truthy(passwordEnv) && passwordEnv.value !in env ==> r == Err(MissingSmtpVariable(passwordEnv.value))
    ensures Truthy(passwordEnv) && passwordEnv.value in env ==> r == Ok(Some(env[passwordEnv.value]))
    ensures !Truthy(passwordEnv) && Truthy(password) ==> r == Ok(Some(password.value))
    ensures !Truthy(passwordEnv) && !Truthy(password) ==> r == Ok(None)
  {
    if Truthy(passwordEnv) then
      match GetEnv(env, passwordEnv.value)
      case None => Err(MissingSmtpVariable(passwordEnv.value))
      case Some(p) => Ok(Some(p))
    else if Truthy(password) then Ok(Some(password.value))
    else Ok(None)
  }

  /** When a password variable is named, `--smtp-password` plays no part. */
  lemma PasswordVariableOverrides(passwordEnv: Option<string>, p1: Option<string>, p2: Option<string>, env: Env)
    requires Truthy(passwordEnv)
    ensures ResolveSmtpPassword(passwordEnv, p1, env) == ResolveSmtpPassword(passwordEnv, p2, env)
  {
  }

  /** What `main` does about the e-mail once the file is written. */
  datatype EmailDecision = SendEmail | WarnIncomplete | NoEmail

  /** An e-mail is attempted only when the recipient, the SMTP server and the
      SMTP user are all truthy; a recipient alone draws a warning. */
  function ShouldEmail(recipient: Option<string>, server: Option<string>, user: Option<string>): (r: EmailDecision)
    ensures r == SendEmail <==> Truthy(recipient) && Truthy(server) && Truthy(user)
    ensures r == WarnIncomplete <==> Truthy(recipient) && !(Truthy(server) && Truthy(user))
    ensures r == NoEmail <==> !Truthy(recipient)
  {
    if Truthy(recipient) && Truthy(server) && Truthy(user) then SendEmail
    else if Truthy(recipient) then WarnIncomplete
    else NoEmail
  }
}
