/** Connecting to Azure SQL and loading the prepared tables into it, chunk by
    chunk: `create_engine` and `export_tables` of `analytics/export_to_sql.py`.
    `sa.create_engine`, the `SELECT 1` probe and the pandas `to_sql` call are
    oracles passed in. */
module SqlExport {
  import opened Common
  import opened Json
  import opened SqlUrl

  // ---------------------------------------------------------------------------
  // ODBC driver negotiation (`create_engine`)

  const FallbackDrivers: seq<string> :=
    ["ODBC Driver 18 for SQL Server", "ODBC Driver 17 for SQL Server", "SQL Server Native Client 11.0"]

  /** `dict.fromkeys(driver_candidates)`: the requested driver, when one is
      given, then the fallbacks, each name once at its first occurrence. */
  function DriverCandidates(driver: string): (r: seq<string>)
    ensures |r| >= 1 && Distinct(r)
    ensures forall d :: d in r <==> d in FallbackDrivers || (driver != "" && d == driver)
    ensures driver != "" ==> r[0] == driver
  {
    Dedup((if driver != "" then [driver] else []) + FallbackDrivers)
  }

  lemma FallbackDriversDistinct()
    ensures Distinct(FallbackDrivers)
  {
  }

  /** The candidates in order: the fallbacks alone without a requested
      driver; otherwise the requested driver followed by the fallbacks other
      than it. */
  lemma DriverCandidatesOrder(driver: string)
    ensures driver == "" ==> DriverCandidates(driver) == FallbackDrivers
    ensures driver != "" ==> DriverCandidates(driver) == [driver] + Without(FallbackDrivers, {driver})
  {
    FallbackDriversDistinct();
    if driver == "" {
      assert [] + FallbackDrivers == FallbackDrivers;
      DedupSeenDistinct(FallbackDrivers, {});
      WithoutNone(FallbackDrivers, {});
    } else {
      var xs := [driver] + FallbackDrivers;
      assert xs[0] == driver && xs[1..] == FallbackDrivers;
      assert DedupSeen(xs, {}) == [driver] + DedupSeen(FallbackDrivers, {} + {driver});
      assert {} + {driver} == {driver};
      DedupSeenDistinct(FallbackDrivers, {driver});
    }
  }

  /** Where to connect: the resolved command-line parameters. */
  datatype SqlTarget = SqlTarget(server: string, database: string, username: string, password: string, port: string)

  function TargetUrl(t: SqlTarget, driver: string): string {
    PyodbcUrl(UrlParts(t.username, t.password, t.server, t.port, t.database, driver))
  }

  /** The engine returned: its URL and the driver it was built with. */
  datatype Engine = Engine(url: string, driver: string)

  /** A candidate whose engine was built but whose connection failed, with
      the error it raised. */
  datatype Attempt = Attempt(driver: string, error: string)

  /** How `create_engine` fails. `sa.create_engine` runs before the `try`,
      so an exception it raises for a candidate's URL ends the search at
      that candidate (`BuildFailed`); when every candidate is built but none
      connects, the `RuntimeError` lists every failed attempt
      (`NoUsableDriver`). */
  datatype EngineError =
    | BuildFailed(driver: string, cause: string)
    | NoUsableDriver(attempts: seq<Attempt>)

  /** `sa.create_engine(uri, fast_executemany=True)`: `None` when it returns
      an engine, the exception text when it raises. */
  type Build = string -> Option<string>

  /** The probe: connecting with the engine built for a URL and running
      `SELECT 1` gives `None` on success and the exception text otherwise. */
  type Probe = string -> Option<string>

  /** A candidate the search moves past: its engine is built, and connecting
      with it fails. */
  predicate PassedOver(t: SqlTarget, build: Build, probe: Probe, d: string) {
    build(TargetUrl(t, d)).None? && probe(TargetUrl(t, d)).Some?
  }

  /** Whether the search ends at a candidate: building its engine raises, or
      the engine connects. */
  function Stops(t: SqlTarget, build: Build, probe: Probe): string -> bool {
    d => !PassedOver(t, build, probe, d)
  }

  /** The outcome of trying the given candidates in order: an engine for the
      first that connects, the exception of the first whose engine cannot be
      built if that comes earlier, or the error listing every failed attempt. */
  function NegotiateAmong(t: SqlTarget, cands: seq<string>, build: Build, probe: Probe): (r: Result<Engine, EngineError>)
    ensures r.Ok? ==>
              && r.value.driver in cands
              && r.value.url == TargetUrl(t, r.value.driver)
              && build(r.value.url).None? && probe(r.value.url).None?
    ensures r.Err? && r.error.BuildFailed? ==>
              && r.error.driver in cands
              && build(TargetUrl(t, r.error.driver)) == Some(r.error.cause)
    ensures r.Err? && r.error.NoUsableDriver? ==>
              && |r.error.attempts| == |cands|
              && forall i :: 0 <= i < |cands| ==>
                   && r.error.attempts[i].driver == cands[i]
                   && build(TargetUrl(t, cands[i])).None?
                   && probe(TargetUrl(t, cands[i])) == Some(r.error.attempts[i].error)
  {
    match FirstIndex(cands, Stops(t, build, probe))
    case Some(k) =>
      var url := TargetUrl(t, cands[k]);
      if build(url).Some? then Err(BuildFailed(cands[k], build(url).value))
      else Ok(Engine(url, cands[k]))
    case None => Err(NoUsableDriver(FailedAttempts(t, cands, build, probe)))
  }

  /** The outcome of trying the candidates of `create_engine` in order. */
  function Negotiate(t: SqlTarget, driver: string, build: Build, probe: Probe): (r: Result<Engine, EngineError>)
    ensures var cands := DriverCandidates(driver);
            r.Ok? ==>
              && r.value.driver in cands
              && r.value.url == TargetUrl(t, r.value.driver)
              && build(r.value.url).None? && probe(r.value.url).None?
    ensures var cands := DriverCandidates(driver);
            r.Err? && r.error.BuildFailed? ==>
              && r.error.driver in cands
              && build(TargetUrl(t, r.error.driver)) == Some(r.error.cause)
    ensures var cands := DriverCandidates(driver);
            r.Err? && r.error.NoUsableDriver? ==>
              && |r.error.attempts| == |cands|
              && forall i :: 0 <= i < |cands| ==>
                   && r.error.attempts[i].driver == cands[i]
                   && build(TargetUrl(t, cands[i])).None?
                   && probe(TargetUrl(t, cands[i])) == Some(r.error.attempts[i].error)
  {
    NegotiateAmong(t, DriverCandidates(driver), build, probe)
  }

  function FailedAttempts(t: SqlTarget, cands: seq<string>, build: Build, probe: Probe): (r: seq<Attempt>)
    requires forall i :: 0 <= i < |cands| ==> PassedOver(t, build, probe, cands[i])
  {
    seq(|cands|, i requires 0 <= i < |cands| && PassedOver(t, build, probe, cands[i]) =>
          Attempt(cands[i], probe(TargetUrl(t, cands[i])).value))
  }

  /** The candidates for which an engine was built (or its building
      attempted): up to and including the one the search ends at, or all of
      them. */
  function TriedAmong(t: SqlTarget, cands: seq<string>, build: Build, probe: Probe): seq<string>
  {
    match FirstIndex(cands, Stops(t, build, probe))
    case Some(k) => cands[..k + 1]
    case None => cands
  }

  function Tried(t: SqlTarget, driver: string, build: Build, probe: Probe): seq<string>
  {
    TriedAmong(t, DriverCandidates(driver), build, probe)
  }

  /** The driver a search that did not exhaust the candidates ended at: the
      engine's, or the one whose engine could not be built. */
  function EndedAt(r: Result<Engine, EngineError>): string
    requires r.Ok? || r.error.BuildFailed?
  {
    if r.Ok? then r.value.driver else r.error.driver
  }

  /** A search that ends early ends at the first candidate that does not fail
      to connect: every candidate before it was built and failed to connect,
      and none after it was tried. */
  lemma StopsAtFirstAmong(t: SqlTarget, cands: seq<string>, build: Build, probe: Probe)
    requires NegotiateAmong(t, cands, build, probe).Ok? || NegotiateAmong(t, cands, build, probe).error.BuildFailed?
    ensures var p := TriedAmong(t, cands, build, probe);
            && p != [] && p[|p| - 1] == EndedAt(NegotiateAmong(t, cands, build, probe))
            && p <= cands
            && forall j :: 0 <= j < |p| - 1 ==> PassedOver(t, build, probe, p[j])
  {
    var stops := Stops(t, build, probe);
    match FirstIndex(cands, stops)
    case Some(k) =>
      var p := cands[..k + 1];
      assert TriedAmong(t, cands, build, probe) == p;
      assert EndedAt(NegotiateAmong(t, cands, build, probe)) == p[k];
      forall j | 0 <= j < k
        ensures PassedOver(t, build, probe, p[j])
      {
        assert !stops(cands[j]);
      }
    case None =>
  }

  /** When `sa.create_engine` raises for the first candidate's URL (a port
      that is not a number, say), `create_engine` raises that exception: no
      other driver is tried and no connection is attempted. */
  lemma FirstBuildFailureAborts(t: SqlTarget, cands: seq<string>, build: Build, probe: Probe)
    requires cands != [] && build(TargetUrl(t, cands[0])).Some?
    ensures NegotiateAmong(t, cands, build, probe) == Err(BuildFailed(cands[0], build(TargetUrl(t, cands[0])).value))
    ensures TriedAmong(t, cands, build, probe) == [cands[0]]
  {
    assert FirstIndex(cands, Stops(t, build, probe)) == Some(0);
  }

  /** When every candidate's engine is built and none connects, every
      candidate was tried, in order, and the error lists them. */
  lemma AllTriedAmong(t: SqlTarget, cands: seq<string>, build: Build, probe: Probe)
    requires NegotiateAmong(t, cands, build, probe).Err? && NegotiateAmong(t, cands, build, probe).error.NoUsableDriver?
    ensures TriedAmong(t, cands, build, probe) == cands
    ensures forall i :: 0 <= i < |cands| ==>
              NegotiateAmong(t, cands, build, probe).error.attempts[i].driver == cands[i]
  {
    assert FirstIndex(cands, Stops(t, build, probe)).None?;
  }

  /** `create_engine`: returns the engine or the error, and the candidates it
      tried, in order. */
  method CreateEngine(t: SqlTarget, driver: string, build: Build, probe: Probe) returns (r: Result<Engine, EngineError>, tried: seq<string>)
    ensures r == Negotiate(t, driver, build, probe)
    ensures tried == Tried(t, driver, build, probe)
  {
    r, tried := TryCandidates(t, DriverCandidates(driver), build, probe);
  }

  /** The loop of `create_engine` over a candidate list: build each engine
      in turn (an exception there leaves the loop), return the first that
      connects, collect the connection failures. */
  method TryCandidates(t: SqlTarget, cands: seq<string>, build: Build, probe: Probe) returns (r: Result<Engine, EngineError>, tried: seq<string>)
    ensures r == NegotiateAmong(t, cands, build, probe)
    ensures tried == TriedAmong(t, cands, build, probe)
  {
    var errors: seq<Attempt> := [];
    tried := [];
    var i := 0;
    while i < |cands|
      invariant 0 <= i <= |cands|
      invariant tried == cands[..i]
      invariant |errors| == i
      invariant forall j :: 0 <= j < i ==>
                  && errors[j].driver == cands[j]
                  && build(TargetUrl(t, cands[j])).None?
                  && probe(TargetUrl(t, cands[j])) == Some(errors[j].error)
    {
      var candidate := cands[i];
      var url := TargetUrl(t, candidate);
      SnocSlice(cands, i);
      tried := tried + [candidate];
      match build(url) {
        case Some(e) =>
          StopsHere(t, cands, build, probe, i);
          r := Err(BuildFailed(candidate, e));
          return;
        case None =>
      }
      match probe(url) {
        case None =>
          StopsHere(t, cands, build, probe, i);
          r := Ok(Engine(url, candidate));
          return;
        case Some(e) =>
          errors := errors + [Attempt(candidate, e)];
      }
      i := i + 1;
    }
    NoneConnects(t, cands, build, probe, errors);
    r := Err(NoUsableDriver(errors));
  }

  /** A candidate that does not fail to connect, after candidates that did,
      ends the search: with its build error, or with its engine. */
  lemma StopsHere(t: SqlTarget, cands: seq<string>, build: Build, probe: Probe, i: nat)
    requires i < |cands| && !PassedOver(t, build, probe, cands[i])
    requires forall j :: 0 <= j < i ==> PassedOver(t, build, probe, cands[j])
    ensures var url := TargetUrl(t, cands[i]);
            NegotiateAmong(t, cands, build, probe) ==
              if build(url).Some? then Err(BuildFailed(cands[i], build(url).value))
              else Ok(Engine(url, cands[i]))
    ensures TriedAmong(t, cands, build, probe) == cands[..i + 1]
  {
    assert FirstIndex(cands, Stops(t, build, probe)) == Some(i);
  }

  /** When every candidate is built and fails to connect, the error lists
      the failures in order. */
  lemma NoneConnects(t: SqlTarget, cands: seq<string>, build: Build, probe: Probe, errors: seq<Attempt>)
    requires |errors| == |cands|
    requires forall j :: 0 <= j < |cands| ==>
               && errors[j].driver == cands[j]
               && build(TargetUrl(t, cands[j])).None?
               && probe(TargetUrl(t, cands[j])) == Some(errors[j].error)
    ensures NegotiateAmong(t, cands, build, probe) == Err(NoUsableDriver(errors))
    ensures TriedAmong(t, cands, build, probe) == cands
  {
    assert FirstIndex(cands, Stops(t, build, probe)).None?;
    assert errors == FailedAttempts(t, cands, build, probe);
  }

  const NoDriverHeadline: string :=
    "Impossible de se connecter au serveur SQL : aucun des drivers ODBC testes n'est disponible ou valide."
  const TriedPrefix: string := "Drivers testes : "
  const InstallHint: string :=
    "Installer 'ODBC Driver 18 for SQL Server' (https://learn.microsoft.com/sql/connect/odbc/download-odbc-driver-for-sql-server) "
    + "ou renseigner --driver avec un driver present sur la machine."
  const DetailHeader: string := "Detail des erreurs :"

  function AttemptDrivers(attempts: seq<Attempt>): (r: seq<string>)
    ensures |r| == |attempts| && forall i :: 0 <= i < |r| ==> r[i] == attempts[i].driver
  {
    seq(|attempts|, i requires 0 <= i < |attempts| => attempts[i].driver)
  }

  /** The lines of the error message, joined with newlines when raised: a
      headline, the tried drivers, a hint, then one line per attempt. */
  function NoDriverMessage(attempts: seq<Attempt>): (lines: seq<string>)
    ensures |lines| == 4 + |attempts|
    ensures lines[1] == TriedPrefix + Join(AttemptDrivers(attempts), ", ")
    ensures forall i :: 0 <= i < |attempts| ==>
              lines[4 + i] == "- " + attempts[i].driver + ": " + attempts[i].error
  {
    [NoDriverHeadline, TriedPrefix + Join(AttemptDrivers(attempts), ", "), InstallHint, DetailHeader]
    + seq(|attempts|, i requires 0 <= i < |attempts| => "- " + attempts[i].driver + ": " + attempts[i].error)
  }

  // ---------------------------------------------------------------------------
  // Chunked export (`export_tables`)

  /** A prepared table: its name, its column names and its rows of cells. */
  datatype Table = Table(name: string, columns: seq<string>, rows: seq<seq<Value>>)

  /** `df.empty`: no rows or no columns. */
  predicate IsEmpty(t: Table) {
    |t.rows| == 0 || |t.columns| == 0
  }

  /** `_serialize_nested`: a list or a dictionary becomes its JSON text
      (`dumps` stands for `json.dumps(value, ensure_ascii=False)`); any other
      cell is kept. */
  function SerializeNested(v: Value, dumps: Value -> string): (r: Value)
    ensures !r.Arr? && !r.Obj?
    ensures (v.Arr? || v.Obj?) ==> r == Str(dumps(v))
  {
    if v.Arr? || v.Obj? then Str(dumps(v)) else v
  }

  /** Serialising is needed once: cells that are not lists or dictionaries,
      serialised ones included, are left as they are. */
  lemma SerializeNestedKeeps(v: Value, dumps: Value -> string)
    ensures !v.Arr? && !v.Obj? ==> SerializeNested(v, dumps) == v
    ensures SerializeNested(SerializeNested(v, dumps), dumps) == SerializeNested(v, dumps)
  {
  }

  /** Every cell of every row through `_serialize_nested`. */
  function SerializeRows(rows: seq<seq<Value>>, dumps: Value -> string): (r: seq<seq<Value>>)
    ensures |r| == |rows|
    ensures forall i :: 0 <= i < |rows| ==> |r[i]| == |rows[i]|
    ensures forall i, k :: 0 <= i < |rows| && 0 <= k < |rows[i]| ==> r[i][k] == SerializeNested(rows[i][k], dumps)
  {
    seq(|rows|, i requires 0 <= i < |rows| =>
      seq(|rows[i]|, k requires 0 <= k < |rows[i]| => SerializeNested(rows[i][k], dumps)))
  }

  /** One `to_sql` call: the table, the schema, the `if_exists` policy, the
      columns and the rows of the chunk. */
  datatype ChunkWrite = ChunkWrite(table: string, schema: string, ifExists: string, columns: seq<string>, rows: seq<seq<Value>>)

  /** The chunk writer: `None` when `to_sql` succeeds, the exception text otherwise. */
  type Writer = ChunkWrite -> Option<string>

  /** What the chunk loop of one table works from: the table name, the
      schema, the caller's policy, the columns, the serialised rows and the
      chunk size. */
  datatype Job = Job(table: string, schema: string, ifExists: string, columns: seq<string>, rows: seq<seq<Value>>, size: nat)

  function Min(a: int, b: int): int {
    if a <= b then a else b
  }

  /** The write for the chunk starting at row `start`: the rows
      `df.iloc[start:start + chunksize]`, with the caller's policy for the
      first chunk and `append` for every later one. */
  function ChunkAt(job: Job, start: nat): (w: ChunkWrite)
    requires start < |job.rows|
    ensures w.rows <= job.rows[start..]
    ensures |w.rows| <= job.size && (job.size > 0 ==> w.rows != [])
    ensures |w.rows| < job.size ==> start + |w.rows| == |job.rows|
    ensures w.ifExists == if start == 0 then job.ifExists else "append"
  {
    ChunkWrite(job.table, job.schema, if start == 0 then job.ifExists else "append",
               job.columns, job.rows[start..Min(start + job.size, |job.rows|)])
  }

  /** What stopped the export. */
  datatype ExportError =
    | ChunkFailed(table: string, first: int, last: int, cause: string)  // rows `first`..`last` of `table`
    | ZeroChunkSize                                                      // `range()` refuses a zero step

  /** The writes made, in order, and the error raised, if any. */
  datatype Outcome = Outcome(writes: seq<ChunkWrite>, error: Option<ExportError>)

  /** Writes made before an outcome. */
  function Prepend(ws: seq<ChunkWrite>, o: Outcome): Outcome {
    Outcome(ws + o.writes, o.error)
  }

  /** The chunk loop from row `start` on: chunks are written in turn until one
      fails, and the failure names the rows of the failing chunk. */
  function RunFrom(job: Job, start: nat, write: Writer): (o: Outcome)
    requires job.size > 0
    ensures o.error.Some? ==> o.error.value.ChunkFailed? && o.error.value.table == job.table
    decreases |job.rows| - start
  {
    if start >= |job.rows| then Outcome([], None)
    else
      var w := ChunkAt(job, start);
      match write(w)
      case Some(e) => Outcome([w], Some(ChunkFailed(job.table, start, start + |w.rows| - 1, e)))
      case None => Prepend([w], RunFrom(job, start + job.size, write))
  }

  /** One step of the chunk loop: the chunk at `start` is written first;
      after a success the loop goes on from the next start, after a failure
      it stops there. */
  lemma RunFromStep(job: Job, start: nat, write: Writer)
    requires job.size > 0 && start < |job.rows|
    ensures var o := RunFrom(job, start, write);
            var w := ChunkAt(job, start);
            && o.writes != [] && o.writes[0] == w
            && (write(w).None? ==> o.writes[1..] == RunFrom(job, start + job.size, write).writes
                                   && o.error == RunFrom(job, start + job.size, write).error)
            && (write(w).Some? ==> o.writes == [w]
                                   && o.error == Some(ChunkFailed(job.table, start, start + |w.rows| - 1, write(w).value)))
  {
    var w := ChunkAt(job, start);
    if write(w).None? {
      var rest := RunFrom(job, start + job.size, write).writes;
      assert ([w] + rest)[1..] == rest;
    }
  }

  /** The rows of a list of writes, one after the other. */
  function WrittenRows(ws: seq<ChunkWrite>): seq<seq<Value>>
  {
    if ws == [] then [] else ws[0].rows + WrittenRows(ws[1..])
  }

  /** When no write fails, the chunks from `start` on are all the remaining
      rows, in order. */
  lemma {:induction false} RunFromSucceeds(job: Job, start: nat, write: Writer)
    requires job.size > 0 && start <= |job.rows|
    requires RunFrom(job, start, write).error.None?
    ensures WrittenRows(RunFrom(job, start, write).writes) == job.rows[start..]
    decreases |job.rows| - start
  {
    if start < |job.rows| {
      var next := Min(start + job.size, |job.rows|);
      RunFromStep(job, start, write);
      assert RunFrom(job, start + job.size, write) == RunFrom(job, next, write);
      RunFromSucceeds(job, next, write);
      SucceedsAfterSuccess(job, start, write);
    }
  }

  /** A first chunk that succeeds puts its rows in front of those of the rest. */
  lemma SucceedsAfterSuccess(job: Job, start: nat, write: Writer)
    requires job.size > 0 && start < |job.rows|
    requires write(ChunkAt(job, start)).None?
    requires WrittenRows(RunFrom(job, start + job.size, write).writes) == job.rows[Min(start + job.size, |job.rows|)..]
    ensures WrittenRows(RunFrom(job, start, write).writes) == job.rows[start..]
  {
    var o, o' := RunFrom(job, start, write), RunFrom(job, start + job.size, write);
    RunFromStep(job, start, write);
    WrittenRowsCons(job.rows, o.writes, o'.writes, start, Min(start + job.size, |job.rows|), |job.rows|);
  }

  /** When a write fails, the error names the rows of that chunk, which is
      the last write, and carries the writer's message. */
  lemma {:induction false} RunFromFails(job: Job, start: nat, write: Writer)
    requires job.size > 0 && start <= |job.rows|
    requires RunFrom(job, start, write).error.Some?
    ensures FailedChunkLast(job, start, write, RunFrom(job, start, write))
    decreases |job.rows| - start
  {
    if write(ChunkAt(job, start)).None? {
      RunFromStep(job, start, write);
      RunFromFails(job, start + job.size, write);
      FailedLastAfterSuccess(job, start, write);
    } else {
      FailedLastHere(job, start, write);
    }
  }

  /** The outcome `o` of the chunk loop from `start` failed with a chunk
      error for the job's table, naming rows from `start` on that span at
      most one chunk; its last write holds exactly those rows, and the
      writer's message for that write is the error's cause. */
  predicate FailedChunkLast(job: Job, start: nat, write: Writer, o: Outcome) {
    && o.error.Some? && o.error.value.ChunkFailed? && o.error.value.table == job.table
    && start <= o.error.value.first <= o.error.value.last < |job.rows|
    && o.error.value.last - o.error.value.first < job.size
    && o.writes != []
    && o.writes[|o.writes| - 1].rows == job.rows[o.error.value.first..o.error.value.last + 1]
    && write(o.writes[|o.writes| - 1]) == Some(o.error.value.cause)
  }

  /** A first chunk that succeeds leaves the failing chunk to the rest of the loop. */
  lemma FailedLastAfterSuccess(job: Job, start: nat, write: Writer)
    requires job.size > 0 && start < |job.rows|
    requires write(ChunkAt(job, start)).None?
    requires FailedChunkLast(job, start + job.size, write, RunFrom(job, start + job.size, write))
    ensures FailedChunkLast(job, start, write, RunFrom(job, start, write))
  {
    var ws := RunFrom(job, start, write).writes;
    var rest := RunFrom(job, start + job.size, write).writes;
    RunFromStep(job, start, write);
    assert ws[|ws| - 1] == ws[1..][|rest| - 1];
  }

  /** A first chunk that fails is the failing chunk. */
  lemma FailedLastHere(job: Job, start: nat, write: Writer)
    requires job.size > 0 && start < |job.rows|
    requires write(ChunkAt(job, start)).Some?
    ensures FailedChunkLast(job, start, write, RunFrom(job, start, write))
  {
    var w := ChunkAt(job, start);
    var ws := RunFrom(job, start, write).writes;
    RunFromStep(job, start, write);
    var end := Min(start + job.size, |job.rows|);
    assert ws[|ws| - 1] == w && w.rows == job.rows[start..end] && |w.rows| == end - start;
  }

  /** When a write fails, the writes from `start` on cover the rows from
      `start` to the end of the failing chunk, in order. */
  lemma {:induction false} RunFromFailsRows(job: Job, start: nat, write: Writer)
    requires job.size > 0 && start <= |job.rows|
    requires RunFrom(job, start, write).error.Some?
    ensures FailsWithRows(job, start, RunFrom(job, start, write))
    decreases |job.rows| - start
  {
    var w := ChunkAt(job, start);
    if write(w).None? {
      RunFromFailsRows(job, start + job.size, write);
      FailsRowsAfterSuccess(job, start, write);
    } else {
      FailsRowsHere(job, start, write);
    }
  }

  /** The outcome `o` of the chunk loop from `start` failed, and its writes
      cover the rows from `start` to the end of the failing chunk, in order. */
  predicate FailsWithRows(job: Job, start: nat, o: Outcome) {
    && o.error.Some? && o.error.value.ChunkFailed? && start <= o.error.value.last < |job.rows|
    && WrittenRows(o.writes) == job.rows[start..o.error.value.last + 1]
  }

  /** A first chunk that succeeds adds its rows in front of the rest. */
  lemma FailsRowsAfterSuccess(job: Job, start: nat, write: Writer)
    requires job.size > 0 && start < |job.rows|
    requires write(ChunkAt(job, start)).None?
    requires start + job.size <= |job.rows|
    requires FailsWithRows(job, start + job.size, RunFrom(job, start + job.size, write))
    ensures FailsWithRows(job, start, RunFrom(job, start, write))
  {
    var o, o' := RunFrom(job, start, write), RunFrom(job, start + job.size, write);
    RunFromStep(job, start, write);
    var next := start + job.size;
    var last := o'.error.value.last;
    WrittenRowsCons(job.rows, o.writes, o'.writes, start, next, last + 1);
  }

  /** A first chunk that fails is the only write. */
  lemma FailsRowsHere(job: Job, start: nat, write: Writer)
    requires job.size > 0 && start < |job.rows|
    requires write(ChunkAt(job, start)).Some?
    ensures FailsWithRows(job, start, RunFrom(job, start, write))
  {
    var o := RunFrom(job, start, write);
    RunFromStep(job, start, write);
    var next := Min(start + job.size, |job.rows|);
    WrittenRowsCons(job.rows, o.writes, [], start, next, next);
  }

  /** The rows of a first write followed by those of the rest. */
  lemma WrittenRowsCons(rows: seq<seq<Value>>, ws: seq<ChunkWrite>, rest: seq<ChunkWrite>, start: nat, next: nat, end: nat)
    requires start <= next <= end <= |rows|
    requires ws != [] && ws[1..] == rest && ws[0].rows == rows[start..next]
    requires WrittenRows(rest) == rows[next..end]
    ensures WrittenRows(ws) == rows[start..end]
  {
    SliceConcat(rows, start, next, end);
  }

  /** Every write of the chunk loop is for the job's table, schema and
      columns, holds between one and `size` rows, and uses the caller's
      policy only when it is the very first chunk; every write but the last
      succeeded and holds exactly `size` rows. */
  lemma {:induction false} RunFromWrite(job: Job, start: nat, write: Writer, k: nat)
    requires job.size > 0 && k < |RunFrom(job, start, write).writes|
    ensures var ws := RunFrom(job, start, write).writes;
            && ws[k].table == job.table && ws[k].schema == job.schema && ws[k].columns == job.columns
            && 1 <= |ws[k].rows| <= job.size
            && ws[k].ifExists == (if start == 0 && k == 0 then job.ifExists else "append")
            && (k + 1 < |ws| ==> |ws[k].rows| == job.size && write(ws[k]).None?)
    decreases k
  {
    var ws := RunFrom(job, start, write).writes;
    RunFromStep(job, start, write);
    if k > 0 {
      assert ws[k] == ws[1..][k - 1];
      RunFromWrite(job, start + job.size, write, k - 1);
    } else if 1 < |ws| {
      assert start + job.size < |job.rows|;
    }
  }

  /** The `k`-th start of `range(start, n, c)`, counted step by step. */
  function NthStart(start: nat, c: nat, k: nat): (r: nat)
    ensures r == start + k * c
    decreases k
  {
    if k == 0 then start else NthStart(start + c, c, k - 1)
  }

  /** The `k`-th write is the chunk at row `start + k * size`: the starts are
      those of `range(start, n, size)`. */
  lemma {:induction false} RunFromStarts(job: Job, start: nat, write: Writer, k: nat)
    requires job.size > 0 && k < |RunFrom(job, start, write).writes|
    ensures NthStart(start, job.size, k) < |job.rows|
    ensures RunFrom(job, start, write).writes[k] == ChunkAt(job, NthStart(start, job.size, k))
    decreases k
  {
    RunFromStep(job, start, write);
    if k > 0 {
      var next := start + job.size;
      var ws := RunFrom(job, start, write).writes;
      var rest := RunFrom(job, next, write).writes;
      assert ws[k] == rest[k - 1];
      RunFromStarts(job, next, write, k - 1);
      assert NthStart(start, job.size, k) == NthStart(next, job.size, k - 1);
    }
  }

  /** The number of starts in `range(0, m, c)`. */
  function ChunkCount(m: nat, c: nat): nat
    requires c > 0
    decreases m
  {
    if m == 0 then 0 else if m <= c then 1 else 1 + ChunkCount(m - c, c)
  }

  /** The count is the ceiling of `m / c`: enough chunks of `c` rows to hold
      `m` rows, and one fewer would not be. */
  lemma {:induction false} ChunkCountCeiling(m: nat, c: nat)
    requires c > 0
    ensures ChunkCount(m, c) * c >= m
    ensures m > 0 ==> (ChunkCount(m, c) - 1) * c < m
    decreases m
  {
    if m > c {
      ChunkCountCeiling(m - c, c);
      var k := ChunkCount(m - c, c);
      assert (k + 1) * c == k * c + c;
      assert k * c == (k - 1) * c + c;
    }
  }

  /** Without a failure the loop from `start` writes one chunk per start of
      `range(start, n, size)`, the ceiling of the remaining rows over the size. */
  lemma {:induction false} RunFromCount(job: Job, start: nat, write: Writer)
    requires job.size > 0 && start <= |job.rows|
    requires RunFrom(job, start, write).error.None?
    ensures |RunFrom(job, start, write).writes| == ChunkCount(|job.rows| - start, job.size)
    decreases |job.rows| - start
  {
    if |job.rows| - start > job.size {
      RunFromCount(job, start + job.size, write);
    }
  }

  /** The chunk loop of a table: its name, columns and serialised rows. */
  function TableJob(t: Table, schema: string, ifExists: string, c: nat, dumps: Value -> string): Job {
    Job(t.name, schema, ifExists, t.columns, SerializeRows(t.rows, dumps), c)
  }

  /** The load of one table: nothing for an empty table; otherwise the
      chunk loop. A non-positive chunk size writes nothing: `range(0, n, c)`
      is refused for a zero step and empty for a negative one. */
  function TableRun(t: Table, schema: string, ifExists: string, c: int, dumps: Value -> string, write: Writer): (o: Outcome)
    ensures IsEmpty(t) ==> o == Outcome([], None)
    ensures !IsEmpty(t) && c == 0 ==> o == Outcome([], Some(ZeroChunkSize))
  {
    if IsEmpty(t) then Outcome([], None)
    else if c == 0 then Outcome([], Some(ZeroChunkSize))
    else if c < 0 then Outcome([], None)
    else RunFrom(TableJob(t, schema, ifExists, c, dumps), 0, write)
  }

  /** The load of every table in turn, stopping at the first error. */
  function ExportRun(tables: seq<Table>, schema: string, ifExists: string, c: int, dumps: Value -> string, write: Writer): (o: Outcome)
    ensures o.error.Some? ==> exists k :: 0 <= k < |tables| && TableRun(tables[k], schema, ifExists, c, dumps, write).error == o.error
    decreases |tables|
  {
    if tables == [] then Outcome([], None)
    else
      var o := TableRun(tables[0], schema, ifExists, c, dumps, write);
      if o.error.Some? then o
      else Prepend(o.writes, ExportRun(tables[1..], schema, ifExists, c, dumps, write))
  }

  /** Whether loading a table raises. */
  function TableFails(schema: string, ifExists: string, c: int, dumps: Value -> string, write: Writer): Table -> bool {
    t => TableRun(t, schema, ifExists, c, dumps, write).error.Some?
  }

  /** The export raises the error of the first table whose load raises, and
      completes when there is none. */
  lemma {:induction false} ExportFirstFailure(tables: seq<Table>, schema: string, ifExists: string, c: int, dumps: Value -> string, write: Writer)
    ensures var o := ExportRun(tables, schema, ifExists, c, dumps, write);
            match FirstIndex(tables, TableFails(schema, ifExists, c, dumps, write))
            case None => o.error.None?
            case Some(k) => o.error == TableRun(tables[k], schema, ifExists, c, dumps, write).error
    decreases |tables|
  {
    if tables != [] {
      ExportFirstFailure(tables[1..], schema, ifExists, c, dumps, write);
    }
  }

  /** `export_tables`: the writes it makes, in order, and the error it raises. */
  method ExportTables(tables: seq<Table>, schema: string, ifExists: string, c: int, dumps: Value -> string, write: Writer)
    returns (writes: seq<ChunkWrite>, error: Option<ExportError>)
    ensures Outcome(writes, error) == ExportRun(tables, schema, ifExists, c, dumps, write)
  {
    writes := [];
    var i := 0;
    while i < |tables|
      invariant 0 <= i <= |tables|
      invariant ExportRun(tables, schema, ifExists, c, dumps, write) == Prepend(writes, ExportRun(tables[i..], schema, ifExists, c, dumps, write))
    {
      var tableWrites, tableError := LoadTable(tables[i], schema, ifExists, c, dumps, write);
      assert tables[i..][0] == tables[i] && tables[i..][1..] == tables[i + 1..];
      if tableError.Some? {
        return writes + tableWrites, tableError;
      }
      AppendAssoc(writes, tableWrites, ExportRun(tables[i + 1..], schema, ifExists, c, dumps, write).writes);
      writes := writes + tableWrites;
      i := i + 1;
    }
    assert writes + [] == writes;
    error := None;
  }

  /** The body of the loop over tables: skip an empty table, serialise the
      cells, then write the chunks. */
  method LoadTable(t: Table, schema: string, ifExists: string, c: int, dumps: Value -> string, write: Writer)
    returns (writes: seq<ChunkWrite>, error: Option<ExportError>)
    ensures Outcome(writes, error) == TableRun(t, schema, ifExists, c, dumps, write)
  {
    writes := [];
    error := None;
    if IsEmpty(t) {
      return;
    }
    var rows := SerializeRows(t.rows, dumps);
    if c == 0 {
      return writes, Some(ZeroChunkSize);
    }
    if c < 0 {
      // `range(0, len(df), chunksize)` is empty for a negative step.
      return;
    }
    writes, error := WriteChunks(Job(t.name, schema, ifExists, t.columns, rows, c), write);
  }

  /** A chunk written without error is followed by the rest of the loop. */
  lemma ChunkSucceeds(job: Job, start: nat, write: Writer, done: seq<ChunkWrite>)
    requires job.size > 0 && start < |job.rows| && write(ChunkAt(job, start)).None?
    ensures Prepend(done, RunFrom(job, start, write)) == Prepend(done + [ChunkAt(job, start)], RunFrom(job, start + job.size, write))
  {
    AppendAssoc(done, [ChunkAt(job, start)], RunFrom(job, start + job.size, write).writes);
  }

  /** A chunk whose write fails is the last write, and its rows are named in the error. */
  lemma ChunkFails(job: Job, start: nat, write: Writer, done: seq<ChunkWrite>)
    requires job.size > 0 && start < |job.rows| && write(ChunkAt(job, start)).Some?
    ensures var w := ChunkAt(job, start);
            Prepend(done, RunFrom(job, start, write))
              == Outcome(done + [w], Some(ChunkFailed(job.table, start, start + |w.rows| - 1, write(w).value)))
  {
  }

  /** The writes `done` so far, followed by the chunk loop from `start`,
      make up the whole loop over the table. */
  predicate Resumes(job: Job, write: Writer, done: seq<ChunkWrite>, start: nat)
    requires job.size > 0
  {
    RunFrom(job, 0, write) == Prepend(done, RunFrom(job, start, write))
  }

  /** One pass of the chunk loop: `df.iloc[start:start + chunksize]` written
      with the caller's policy on the first pass and `append` after it. On
      success the loop resumes at the next start; on failure the writes so
      far and the error are the whole loop's outcome. */
  method WriteChunk(job: Job, start: nat, first: bool, write: Writer, ghost done: seq<ChunkWrite>)
    returns (w: ChunkWrite, failure: Option<string>)
    requires job.size > 0 && start < |job.rows| && (first <==> start == 0)
    requires Resumes(job, write, done, start)
    ensures w == ChunkAt(job, start) && failure == write(w)
    ensures failure.None? ==> Resumes(job, write, done + [w], start + job.size)
    ensures failure.Some? ==>
              RunFrom(job, 0, write) == Outcome(done + [w], Some(ChunkFailed(job.table, start, start + |w.rows| - 1, failure.value)))
  {
    var chunk := job.rows[start..Min(start + job.size, |job.rows|)];
    w := ChunkWrite(job.table, job.schema, if first then job.ifExists else "append", job.columns, chunk);
    failure := write(w);
    if failure.None? {
      ChunkSucceeds(job, start, write, done);
    } else {
      ChunkFails(job, start, write, done);
    }
  }

  /** The chunk loop of `export_tables` for one table: the caller's policy
      on the first chunk, `append` on every later one, stopping at the first
      chunk whose write fails. */
  method WriteChunks(job: Job, write: Writer) returns (writes: seq<ChunkWrite>, error: Option<ExportError>)
    requires job.size > 0
    ensures Outcome(writes, error) == RunFrom(job, 0, write)
  {
    writes := [];
    error := None;
    var n := |job.rows|;
    var first := true;
    var start := 0;
    assert Prepend([], RunFrom(job, 0, write)) == RunFrom(job, 0, write);
    while start < n
      invariant first <==> start == 0
      invariant Resumes(job, write, writes, start)
      decreases n - start
    {
      var w, failure := WriteChunk(job, start, first, write, writes);
      if failure.Some? {
        return writes + [w], Some(ChunkFailed(job.table, start, start + |w.rows| - 1, failure.value));
      }
      writes := writes + [w];
      first := false;
      start := start + job.size;
    }
    assert writes + [] == writes;
  }
}
