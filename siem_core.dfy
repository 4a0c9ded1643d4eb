/**
 * The SIEM scan producer (siemcore.py): the process-wide state set up once when the
 * module is imported, the status report, and `run_siem_scan`, which builds the three
 * synthetic threat records, makes a best-effort write of them to the log file and
 * returns a success or failure record.
 *
 * The file system is a map from path to the log record last written there; the clock
 * is an opaque `now` text and the epoch seconds behind the scan id are an input.
 */
module SiemCore {
  import opened Wrappers
  import Decimal

  datatype Severity = Low | Medium | High
                    | Unrated  // any other "severity" value, or none
  datatype ThreatStatus = Active | Blocked | Monitoring

  /** One threat record; `port` and `source` are present only on some records. */
  datatype Threat = Threat(
    id: int,
    kind: string,
    port: Option<int>,
    source: Option<string>,
    severity: Severity,
    timestamp: string,
    status: ThreatStatus)

  /** The dictionary `run_siem_scan` returns; `error` is present only on a failure. */
  datatype ScanResult = ScanResult(
    success: bool,
    threats: seq<Threat>,
    scanTimestamp: string,
    threatsCount: int,
    error: Option<string>)

  /** The shape every result has: the count is the list's length, and a failure has no
      threats and a non-empty error text. */
  predicate WellShaped(r: ScanResult) {
    && r.threatsCount == |r.threats|
    && (r.success <==> r.error.None?)
    && (!r.success ==> r.threats == [] && r.error.value != "")
  }

  /** The module's globals after import: PLATFORM, LOG_DIR, LOG_FILE, INIT_SUCCESS, INIT_ERROR. */
  datatype SiemState = SiemState(
    platform: string,
    logDir: string,
    logFile: Option<string>,
    initSuccess: bool,
    initError: Option<string>)

  /** The file the scan log is written to, when LOG_FILE is truthy (set and non-empty). */
  function LogTarget(st: SiemState): (p: Option<string>)
    ensures p.Some? <==> st.logFile.Some? && st.logFile.value != ""
    ensures p.Some? ==> p.value == st.logFile.value
  {
    if st.logFile.Some? && st.logFile.value != "" then st.logFile else None
  }

  /** What a completed import leaves behind: initialisation succeeded exactly when there
      is no init error, and exactly when there is a log file to write. */
  predicate InitConsistent(st: SiemState) {
    && (st.initSuccess <==> st.initError.None?)
    && (st.initSuccess <==> LogTarget(st).Some?)
  }

  const LogFileName: string := "siem_scan_log.json"

  /** `os.path.join(dir, name)` for a relative `name`. */
  function JoinPath(dir: string, name: string): (p: string)
    requires name != ""
    ensures p != "" && |p| >= |name| && p[|p| - |name|..] == name
    ensures |p| >= |dir| && p[..|dir|] == dir
  {
    if dir == [] then name
    else if dir[|dir| - 1] == '/' then dir + name
    else dir + "/" + name
  }

  /**
   * The module-level initialisation. `logDir` is the directory chosen for the platform;
   * `setupError` is the text of the exception raised while creating it or probing it for
   * writing, if any. On failure LOG_FILE is reset to None and INIT_ERROR records the text.
   */
  function Initialize(platform: string, logDir: string, setupError: Option<string>): (st: SiemState)
    ensures InitConsistent(st)
    ensures st.platform == platform && st.logDir == logDir
    ensures st.initSuccess <==> setupError.None?
    ensures !st.initSuccess ==> st.initError == setupError && st.logFile.None?
    ensures st.initSuccess ==> st.logFile == Some(JoinPath(logDir, LogFileName))
  {
    match setupError
    case None => SiemState(platform, logDir, Some(JoinPath(logDir, LogFileName)), true, None)
    case Some(e) => SiemState(platform, logDir, None, false, Some(e))
  }

  /** The dictionary `get_siem_status` returns. */
  datatype SiemStatus = SiemStatus(
    initSuccess: bool,
    initError: Option<string>,
    platform: string,
    logDir: string,
    logFile: Option<string>)

  /** Reports the module state; it reads the globals and changes nothing. */
  function GetSiemStatus(st: SiemState): (s: SiemStatus)
    ensures InitConsistent(st) ==> (s.initSuccess <==> s.initError.None?)
    ensures InitConsistent(st) ==> (s.initSuccess <==> s.logFile.Some? && s.logFile.value != "")
  {
    SiemStatus(st.initSuccess, st.initError, st.platform, st.logDir, st.logFile)
  }

  /** The state a status report describes. */
  function StateOf(s: SiemStatus): SiemState {
    SiemState(s.platform, s.logDir, s.logFile, s.initSuccess, s.initError)
  }

  /** The status report loses nothing of the state: the state can be read back from it. */
  lemma StatusReportsState(st: SiemState)
    ensures StateOf(GetSiemStatus(st)) == st
  {
  }

  /** Python's `str()` of an optional text. */
  function PyStr(o: Option<string>): (s: string)
    ensures o.Some? ==> s == o.value
    ensures o.None? ==> s == "None"
  {
    o.GetOr("None")
  }

  /** The three synthetic threat records of one scan, all stamped with the clock reading `now`. */
  function SyntheticThreats(now: string): (ts: seq<Threat>)
    ensures |ts| == 3
    ensures forall i, j :: 0 <= i < j < |ts| ==> ts[i].id != ts[j].id
    ensures (set t | t in ts :: t.severity) == {Low, Medium, High}
    ensures forall t :: t in ts ==> t.timestamp == now
  {
    [ Threat(1, "Suspicious Connection", Some(8080), None, Medium, now, Active),
      Threat(2, "Root Access Attempt", None, Some("unknown"), High, now, Blocked),
      Threat(3, "Unusual Network Traffic", Some(443), None, Low, now, Monitoring) ]
  }

  /** The record written to the log file. */
  datatype LogEntry = LogEntry(
    scanTimestamp: string,
    scanId: string,
    threatsFound: int,
    threats: seq<Threat>,
    scanStatus: string)

  function LogRecord(now: string, epochSeconds: nat, threats: seq<Threat>): (e: LogEntry)
    ensures e.threatsFound == |e.threats| && e.threats == threats
    ensures e.scanStatus == "completed"
    ensures |e.scanId| > 5 && e.scanId[..5] == "scan_"
    ensures Decimal.IsDigits(e.scanId[5..]) && Decimal.ParseDigits(e.scanId[5..]) == epochSeconds
  {
    Decimal.ParseNatToString(epochSeconds);
    var id := "scan_" + Decimal.NatToString(epochSeconds);
    assert id[5..] == Decimal.NatToString(epochSeconds);
    LogEntry(now, id, |threats|, threats, "completed")
  }

  /** How opening and dumping to the log file turns out. */
  datatype WriteOutcome = WriteOk | WriteFailed(reason: string)

  /** The value `run_siem_scan` returns, and the file system after it. */
  datatype ScanRun = ScanRun(result: ScanResult, disk: map<string, LogEntry>)

  const FailurePrefix: string := "SIEM scan failed: "
  const NotInitialized: string := "SIEM not properly initialized: "

  /**
   * One scan. Without a successful initialisation the scan fails with the init error in
   * its message and writes nothing; otherwise it returns the three threats, and, when
   * LOG_FILE is set, overwrites that file with a log record unless the write fails. A
   * failed write is swallowed.
   */
  function RunSiemScan(st: SiemState, now: string, epochSeconds: nat, write: WriteOutcome,
                       disk: map<string, LogEntry>): (run: ScanRun)
    ensures WellShaped(run.result)
    ensures run.result.success <==> st.initSuccess
    ensures run.result.scanTimestamp == now
    ensures run.disk.Keys >= disk.Keys
    ensures forall p :: p in disk && Some(p) != LogTarget(st) ==> run.disk[p] == disk[p]
    ensures forall p :: p in run.disk && Some(p) != LogTarget(st) ==> p in disk && run.disk[p] == disk[p]
    ensures LogTarget(st).None? ==> run.disk == disk
  {
    if !st.initSuccess then
      var msg := FailurePrefix + NotInitialized + PyStr(st.initError);
      ScanRun(ScanResult(false, [], now, 0, Some(msg)), disk)
    else
      var threats := SyntheticThreats(now);
      var disk' :=
        match LogTarget(st)
        case None => disk
        case Some(path) =>
          if write.WriteOk? then disk[path := LogRecord(now, epochSeconds, threats)] else disk;
      ScanRun(ScanResult(true, threats, now, |threats|, None), disk')
  }

  /** A successful scan returns exactly the three synthetic threats, whatever the write does. */
  lemma SuccessfulScan(st: SiemState, now: string, epochSeconds: nat, write: WriteOutcome,
                       disk: map<string, LogEntry>)
    requires st.initSuccess
    ensures var r := RunSiemScan(st, now, epochSeconds, write, disk).result;
      && r.success && r.threatsCount == |r.threats| == 3
      && r.threats == SyntheticThreats(now)
      && [r.threats[0].id, r.threats[1].id, r.threats[2].id] == [1, 2, 3]
      && [r.threats[0].severity, r.threats[1].severity, r.threats[2].severity] == [Medium, High, Low]
      && [r.threats[0].status, r.threats[1].status, r.threats[2].status] == [Active, Blocked, Monitoring]
  {
  }

  /** Without a successful initialisation the scan fails with the init error and writes nothing. */
  lemma UninitializedScanFails(st: SiemState, now: string, epochSeconds: nat, write: WriteOutcome,
                               disk: map<string, LogEntry>)
    requires !st.initSuccess
    ensures var run := RunSiemScan(st, now, epochSeconds, write, disk);
      && run.result == ScanResult(false, [], now, 0,
                                  Some(FailurePrefix + NotInitialized + PyStr(st.initError)))
      && run.disk == disk
  {
  }

  /** The write is attempted only when LOG_FILE is set, so an import that failed (which left
      LOG_FILE as None) never touches the file system. */
  lemma WriteOnlyWithLogFile(st: SiemState, now: string, epochSeconds: nat, write: WriteOutcome,
                             disk: map<string, LogEntry>)
    requires InitConsistent(st)
    ensures var run := RunSiemScan(st, now, epochSeconds, write, disk);
      run.disk != disk ==> st.initSuccess && LogTarget(st).Some? && write.WriteOk?
    ensures !st.initSuccess ==> RunSiemScan(st, now, epochSeconds, write, disk).disk == disk
  {
  }

  /** A failed log write is swallowed: the scan returns the same record as when it succeeds,
      and the file system is left as it was. */
  lemma WriteFailureIsSwallowed(st: SiemState, now: string, epochSeconds: nat, reason: string,
                                disk: map<string, LogEntry>)
    ensures var failed := RunSiemScan(st, now, epochSeconds, WriteFailed(reason), disk);
      && failed.result == RunSiemScan(st, now, epochSeconds, WriteOk, disk).result
      && failed.disk == disk
  {
  }

  /** A successful write overwrites the log file with a record of exactly the threats returned,
      whatever the file held before. */
  lemma LoggedRecordMatchesResult(st: SiemState, now: string, epochSeconds: nat,
                                  disk: map<string, LogEntry>, path: string)
    requires st.initSuccess && LogTarget(st) == Some(path)
    ensures var run := RunSiemScan(st, now, epochSeconds, WriteOk, disk);
      && path in run.disk
      && run.disk == disk[path := run.disk[path]]
      && run.disk[path].threats == run.result.threats
      && run.disk[path].threatsFound == run.result.threatsCount
      && run.disk[path].scanStatus == "completed"
      && run.disk[path].scanTimestamp == now
  {
  }

  /** An import whose setup failed gives a scan that fails with that setup error. */
  lemma FailedImportFailsScans(platform: string, logDir: string, e: string, now: string,
                               epochSeconds: nat, write: WriteOutcome, disk: map<string, LogEntry>)
    ensures var run := RunSiemScan(Initialize(platform, logDir, Some(e)), now, epochSeconds, write, disk);
      run.result.error == Some(FailurePrefix + NotInitialized + e) && run.disk == disk
  {
  }
}
