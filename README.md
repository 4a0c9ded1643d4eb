# SentinelIT Mobile: a verified model of the scan pipeline

SentinelIT Mobile is a Kivy dashboard app. It shows mock security-scan results
("threats") produced by a stub SIEM module. It also ships an Android accessibility
service that warns when a USSD code is typed. This project models three pieces of it
in Dafny and proves properties about them:

- **The SIEM scan producer** (`siemcore.py`, module `SiemCore`). The module's
  process-wide state is set once at import: `LOG_DIR`, `LOG_FILE`, `INIT_SUCCESS` and
  `INIT_ERROR`. `get_siem_status` reports that state. `run_siem_scan` returns either a
  success record with three fixed threats or a failure record. Along the way it makes a
  best-effort write of a log record. The file system is a map from path to the record
  last written there, so an overwrite is a map update. The setup outcome and the write
  outcome are inputs.
- **The dashboard screen** (`main.py`, module `Dashboard`). The class `DashboardScreen`
  has one field per piece of state that the source changes in place: the stored
  threats, the last scan time, the scan counter, the status line, the threats and scans
  cards, and the activity feed. Each method's postcondition ties the new snapshot to a
  function of the old one (`ScanStep`, `ThreatsCard`, `Refreshed`). The lemmas about
  those functions state the source's rules: severity precedence for the threats card,
  success-only counting, status texts, and the feed's growth and trimming. The feed is
  the list of Kivy children in their own order. `add_widget(…, index=len(children))`
  puts a new entry at the end, so `children[0]` is the oldest entry.
- **The USSD interceptor** (`ussdinterceptorservice.java`, module `UssdInterceptor`).
  A service class keeps the notices it has shown. `OnAccessibilityEvent` loops over the
  event's texts and adds one notice for each non-null text that begins with `*#`.

`Decimal` renders a natural number the way Python's `str()` does. It also has the
inverse parse, which is what lets the lemmas say that a card "shows" a number.
`Wrappers` holds the `Option` type, which stands for missing dictionary keys and Java
nulls.

## Notes on the code's behaviour

- The scan counter counts only successful scans, not attempts: `execute_scan`
  increments it only when the result is a dictionary with a truthy `success`
  (`ScanStepEffects`, `ScanSeriesCounts`).
- A positive count with no high or medium threat shows the yellow "Low Risk" card,
  even with an empty list, where the card reads "0 Low Risk" (`SeverityPrecedence`).
- `auto_refresh` removes at most one entry per call, and scans add two entries without
  trimming. A feed that has grown past ten therefore never comes back down
  (`RefreshedTimesLength`, `FeedOutgrowsTen`).

Colours are the RGBA tuples named by hue: (1,0,0) red, (1,0.6,0) orange, (1,0.8,0)
yellow, (0,0.8,0) green, (0.2,0.6,0.8) blue, (0.6,0.6,0.6) grey. The status line turns
(1,0.8,0), which is yellow, while a scan runs.

## Model

| member | source | states |
|---|---|---|
| `Decimal.NatToString` | main.py:401 | `str(n)` of a natural number: at least one digit, all digits, no leading zero unless it is "0" |
| `Decimal.ParseNatToString` | main.py:401 | reading back the text `str(n)` gives `n` again (the partner of `NatToString`) |
| `Decimal.NatToStringInjective` | main.py:428-429 | different counters are shown as different texts |
| `SiemCore.JoinPath` | siemcore.py:34 | `os.path.join(LOG_DIR, "siem_scan_log.json")` is non-empty, starts with the directory and ends with the file name |
| `SiemCore.Initialize` | siemcore.py:5-52 | import-time setup: success exactly when setup raised nothing; on failure `INIT_ERROR` is the error text and `LOG_FILE` is None; on success `LOG_FILE` is the joined path and the state is consistent |
| `SiemCore.GetSiemStatus` | siemcore.py:54-62 | the status report of a consistent state says `init_success` exactly when there is no error and exactly when a log file is set |
| `SiemCore.StatusReportsState` | siemcore.py:54-62 | the status report carries the whole module state unchanged |
| `SiemCore.SyntheticThreats` | siemcore.py:76-101 | three threats with distinct ids, one each of low, medium and high severity, each stamped with the scan's clock reading `now` |
| `SiemCore.LogRecord` | siemcore.py:109-115 | the logged record has `threats_found == len(threats)`, the same threats, `scan_status == "completed"`, and a `scan_id` of "scan_" followed by the epoch seconds |
| `SiemCore.RunSiemScan` | siemcore.py:64-158 | every result is well shaped (count equals list length; a failure has no threats, count 0 and a non-empty error); success exactly when init succeeded; no file other than `LOG_FILE` is changed, added or removed; with `LOG_FILE` unset or empty the file system is untouched |
| `SiemCore.SuccessfulScan` | siemcore.py:70-144 | after a successful init the result holds 3 threats with ids 1, 2, 3, severities medium/high/low and statuses active/blocked/monitoring, in that order, whatever the write does |
| `SiemCore.UninitializedScanFails` | siemcore.py:70-158 | without init the result is `success` false, no threats, count 0 and the error "SIEM scan failed: SIEM not properly initialized: " + `str(INIT_ERROR)` ("None" when there is no error text); the file system is untouched |
| `SiemCore.WriteOnlyWithLogFile` | siemcore.py:105-133 | the file system changes only after a successful init with `LOG_FILE` set and a write that succeeds; a failed import never writes |
| `SiemCore.WriteFailureIsSwallowed` | siemcore.py:108-144 | a failed write returns the same record as a successful one and leaves the file system as it was |
| `SiemCore.LoggedRecordMatchesResult` | siemcore.py:108-118 | a successful write overwrites `LOG_FILE`, whatever it held, with a record of exactly the returned threats and count, status "completed", stamped with the scan's clock reading `now` |
| `SiemCore.FailedImportFailsScans` | siemcore.py:47-73 | an import whose setup raised `e` makes every scan fail with "SIEM scan failed: SIEM not properly initialized: " + `e`, and no write |
| `Dashboard.InitialIsConsistent` | main.py:145-146 | the freshly built scans card shows the counter 0 |
| `Dashboard.Tally` | main.py:404-406 | a severity tally never exceeds the number of threats |
| `Dashboard.TallyPositive` | main.py:404-412 | a tally is positive exactly when some threat has that severity (both directions) |
| `Dashboard.TalliesCoverAll` | main.py:404-406 | the high, medium, low and other tallies add up to the number of threats |
| `Dashboard.SeverityPrecedence` | main.py:395-424 | with a positive count the card is red "{high} Critical" iff some threat is high, orange "{medium} Medium" iff none is high and some is medium, and yellow "{low} Low Risk" otherwise; its value reads back as the count; with count ≤ 0 it is green "0"/"All Clear" whatever the list holds |
| `Dashboard.ScanStepEffects` | main.py:329-393 | the counter grows by 1 exactly on a success; a failure or exception leaves threats, time, cards and last-scan label alone; a success stores the reported threats (default `[]`) and puts on the threats card the reported `threats_count`, or `len(threats)` only when that key is absent; the feed keeps its old entries and gains the "initiated" entry and exactly one more; the scans card keeps showing the counter |
| `Dashboard.StatusAfterScan` | main.py:355-393 | status is red "❌ " + the error (the "error" value, else "Scan failed"; "Unknown error" for a non-dictionary; "Scan error: …" for an exception) iff the scan did not succeed; orange "⚠️ n threats found" iff it succeeded with n > 0; green "🟢 System Protected" iff it succeeded with no positive count; the outcome entry of the feed matches |
| `Dashboard.CardsShowScanOutcome` | main.py:343-352 | after a success the scans card reads back as the new counter, old + 1, and a positive threats card reads back as the reported count |
| `Dashboard.ScanSeriesCounts` | main.py:343-348 | over any series of scans the counter grows by the number of successes, the feed by two entries per scan, and the scans card keeps showing the counter |
| `Dashboard.AsReply` | main.py:343-345 | the screen sees the scan result as a dictionary with the same success flag and threats, and with a well-shaped result the reported count is the list length |
| `Dashboard.FallbackScan` | main.py:20-52 | the stand-in scan is a well-shaped success |
| `Dashboard.FallbackMatchesSiem` | main.py:20-52 | given the same clock reading `now`, the stand-in returns exactly the record of an initialised SIEM scan |
| `Dashboard.SyntheticTallies` | siemcore.py:76-101 | the synthetic threats hold one high, one medium and one low threat |
| `Dashboard.ScanWithInitializedSiem` | main.py:341-373 | a scan by an initialised SIEM stores its three threats, counts once, shows "⚠️ 3 threats found" in orange and a red "3"/"1 Critical" card, whatever the log write does |
| `Dashboard.ScanWithUninitializedSiem` | main.py:383-387 | a scan by an uninitialised SIEM shows "❌ SIEM scan failed: SIEM not properly initialized: …" in red, logs "initiated" and "failed", and changes nothing else |
| `Dashboard.Refreshed` | main.py:436-442 | a refresh appends its entry and removes only the oldest entry when the feed is then over ten: a feed of ten or more keeps its length, a shorter one grows by one |
| `Dashboard.RefreshedTimesLength` | main.py:436-442 | refreshes alone fill a short feed up to ten and never change the length of a feed of ten or more |
| `Dashboard.FeedOutgrowsTen` | main.py:440-442 | four scans from start-up make eleven entries, and no number of refreshes brings the feed back to ten |
| `Dashboard.DashboardScreen.constructor` | main.py:56-62 | the screen starts empty with counter 0, green "System Protected", default cards and the three start-up entries |
| `Dashboard.DashboardScreen.AddActivityItem` | main.py:295-321 | the new entry goes at the end of the feed and nothing else changes |
| `Dashboard.DashboardScreen.UpdateThreatsCard` | main.py:395-424 | only the threats card changes, to `ThreatsCard(count, threats)` |
| `Dashboard.DashboardScreen.UpdateScansCard` | main.py:426-429 | only the scans card changes, to the counter's text |
| `Dashboard.DashboardScreen.UpdateLastScanDisplay` | main.py:431-434 | the last-scan label changes only when a scan time exists |
| `Dashboard.DashboardScreen.ExecuteScan` | main.py:329-393 | the screen's new state is `ScanStep` of its old state |
| `Dashboard.DashboardScreen.PerformQuickScan` | main.py:323-324 | runs `ExecuteScan` with "Quick Scan" |
| `Dashboard.DashboardScreen.PerformFullScan` | main.py:326-327 | runs `ExecuteScan` with "Deep Scan" |
| `Dashboard.DashboardScreen.AutoRefresh` | main.py:436-442 | only the feed changes, to `Refreshed` of the old feed |
| `Dashboard.DashboardScreen.OpenSettings` | main.py:444-446 | only the feed changes, by the "Settings panel accessed" entry at the end |
| `Dashboard.DashboardScreen.OpenReports` | main.py:448-450 | only the feed changes, by the "Security reports viewed" entry at the end |
| `UssdInterceptor.UssdCodeIsPrefix` | ussdinterceptorservice.java:14 | the USSD test holds exactly when "*#" is a prefix of the text (`startsWith`) |
| `UssdInterceptor.NonCodes` | ussdinterceptorservice.java:14 | "", "*", "#*" and "*1#" are not USSD codes; "*#06#" is |
| `UssdInterceptor.BlockedTexts` | ussdinterceptorservice.java:13-15 | at most one blocked text per list entry, and each one begins with "*#" |
| `UssdInterceptor.BlockedTextsMembership` | ussdinterceptorservice.java:13-15 | a text is blocked iff it is a non-null entry of the list that begins with "*#"; null entries are skipped |
| `UssdInterceptor.BlockedTextsAppend` | ussdinterceptorservice.java:13-15 | matches are taken in list order: blocking a concatenation blocks the first part and then the rest |
| `UssdInterceptor.NoticesCount` | ussdinterceptorservice.java:13-15 | the notices for a text list are all "SentinelIT: USSD code blocked", and there are as many as the list has non-null entries beginning with "*#" (counted independently) |
| `UssdInterceptor.UssdInterceptorService.OnAccessibilityEvent` | ussdinterceptorservice.java:10-21 | the shown notices are the old ones followed by one notice per matching text of the event; as many new notices as the event's non-null texts beginning with "*#"; a null event or a null text list shows nothing |
| `UssdInterceptor.UssdInterceptorService.OnInterrupt` | ussdinterceptorservice.java:23-26 | nothing changes |

## Left out

- Kivy widget construction and layout (`create_header`, `create_status_cards`, `create_status_card`, `create_quick_actions`, `create_activity_section`) are not modelled. They are presentation; labels are plain string fields and colours are an enumeration.
- The protection and updates cards never change after they are built, so they are not modelled.
- The desktop and Android notifications (`plyer.notification.notify`) are not modelled. They are a foreign side channel whose failures the source swallows.
- `Clock.schedule_interval` is not modelled. `AutoRefresh` is a plain method that can be called at any time.
- Wall-clock readings are opaque inputs: `datetime.now()`, ISO timestamps and `strftime("%H:%M")`. All readings within one scan share one `now` value, and the epoch seconds behind `scan_id` are an input.
- The choice of the log directory, `os.makedirs`, the write probe, the JSON dump and the size check after writing are not modelled. They are file-system I/O, summarised by the setup error and the write outcome.
- SiemCore.Initialize: an exception raised before `LOG_DIR` is assigned is not modelled. The source can only raise one while resolving the Android storage path.
- SiemCore.RunSiemScan: a write that fails after the file has been truncated leaves the model's file system unchanged. The model does not capture the partly written file.
- Dashboard.DashboardScreen.ExecuteScan: only exceptions raised by the scan call itself are modelled. Threats are typed records and counts are integers, so there are no malformed entries that would raise part-way through an update.
- Dashboard.Reply: `success` is the truthiness of the value, and `threats_count` is an integer when present. Other Python values are not modelled.
- JSON serialisation of the log record, and reading it back, are not modelled. The log is the record value itself.
- All `print` and traceback output, `test_siem_complete` and `SentinelApp.build` are not modelled. They are diagnostics and app start-up.
- The Android accessibility and Toast framework and `onServiceConnected` are not modelled. A shown notice is its message text.
