/** The SQLAlchemy URL for the pyodbc dialect, built the same way by
    `analytics/export_to_sql.py` (`create_engine`) and by the API settings
    (`Settings.sqlalchemy_dsn`). */
module SqlUrl {
  import opened Common

  /** `driver.replace(" ", "+")`: the driver name as it appears in the query string. */
  function DriverToken(driver: string): (r: string)
    ensures |r| == |driver| && ' ' !in r
  {
    ReplaceCharEach(driver, ' ', '+');
    ReplaceChar(driver, ' ', "+")
  }

  /** Each space of the driver name becomes a `+`; every other character is kept. */
  lemma DriverTokenEach(driver: string)
    ensures forall k :: 0 <= k < |driver| ==>
              DriverToken(driver)[k] == if driver[k] == ' ' then '+' else driver[k]
  {
    ReplaceCharEach(driver, ' ', '+');
  }

  /** The driver name comes back from its token when it has no `+` of its own. */
  lemma DriverTokenRoundTrip(driver: string)
    requires '+' !in driver
    ensures ReplaceChar(DriverToken(driver), '+', " ") == driver
  {
    DriverTokenEach(driver);
    ReplaceCharEach(DriverToken(driver), '+', ' ');
  }

  const Scheme: string := "mssql+pyodbc://"
  const DriverKey: string := "driver="

  datatype UrlParts = UrlParts(username: string, password: string, server: string, port: string, database: string, driver: string)

  /** `f"mssql+pyodbc://{username}:{password}@{server}:{port}/{database}?driver={driver_token}"` */
  function PyodbcUrl(p: UrlParts): (r: string)
    ensures |r| > |Scheme| && r[..|Scheme|] == Scheme
  {
    Scheme + (p.username + (":" + (p.password + ("@" + (p.server + (":" + (p.port + ("/" + (p.database + ("?" + (DriverKey + DriverToken(p.driver))))))))))))
  }

  /** Parts that cannot be confused with the delimiters that follow them. */
  predicate Unambiguous(p: UrlParts) {
    && ':' !in p.username && '@' !in p.password && ':' !in p.server
    && '/' !in p.port && '?' !in p.database && '+' !in p.driver
  }

  /** Reading a URL of that shape back into its parts, each one ending at the
      first delimiter that follows it. */
  function ParsePyodbcUrl(url: string): Option<UrlParts>
  {
    if |url| < |Scheme| || url[..|Scheme|] != Scheme then None
    else
      match Cut(url[|Scheme|..], ':')
      case None => None
      case Some((username, r1)) =>
        match Cut(r1, '@')
        case None => None
        case Some((password, r2)) =>
          match Cut(r2, ':')
          case None => None
          case Some((server, r3)) =>
            match Cut(r3, '/')
            case None => None
            case Some((port, r4)) =>
              match Cut(r4, '?')
              case None => None
              case Some((database, r5)) =>
                if |r5| < |DriverKey| || r5[..|DriverKey|] != DriverKey then None
                else Some(UrlParts(username, password, server, port, database, ReplaceChar(r5[|DriverKey|..], '+', " ")))
  }

  /** Every part can be read back from the URL when none of them holds the
      delimiter that ends it. */
  lemma PyodbcUrlRoundTrip(p: UrlParts)
    requires Unambiguous(p)
    ensures ParsePyodbcUrl(PyodbcUrl(p)) == Some(p)
  {
    var r5 := DriverKey + DriverToken(p.driver);
    var r4 := p.database + ("?" + r5);
    var r3 := p.port + ("/" + r4);
    var r2 := p.server + (":" + r3);
    var r1 := p.password + ("@" + r2);
    var r0 := p.username + (":" + r1);
    var url := PyodbcUrl(p);
    assert url == Scheme + r0;
    assert url[..|Scheme|] == Scheme && url[|Scheme|..] == r0;
    CutConcat(p.username, ':', r1);
    CutConcat(p.password, '@', r2);
    CutConcat(p.server, ':', r3);
    CutConcat(p.port, '/', r4);
    CutConcat(p.database, '?', r5);
    assert r5[..|DriverKey|] == DriverKey && r5[|DriverKey|..] == DriverToken(p.driver);
    DriverTokenRoundTrip(p.driver);
  }
}
