/**
 * The dashboard screen of the mobile app (main.py, DashboardScreen): its state after
 * each scan, the threats and scans cards, the status line and the activity feed.
 * Widgets are plain fields: a label is its text, an RGBA colour is a `Colour`, and the
 * activity feed is the sequence of the feed's children in Kivy's order, oldest first.
 *
 * `DashboardView` is a snapshot of the screen; `ScanStep`, `ThreatsCard` and `Refreshed`
 * say what one operation does to it, and the class `DashboardScreen` carries the state
 * that the source's methods update in place.
 */
module Dashboard {
  import opened Wrappers
  import Decimal
  import SiemCore

  type Threat = SiemCore.Threat

  /** The RGBA tuples the screen uses: (1,0,0) red, (1,0.6,0) orange, (1,0.8,0) yellow,
      (0,0.8,0) green, (0.2,0.6,0.8) blue and (0.6,0.6,0.6) grey. */
  datatype Colour = Red | Orange | Yellow | Green | Blue | Grey

  /** A status card's value label and subtitle label. */
  datatype Card = Card(value: string, valueColour: Colour, subtitle: string, subtitleColour: Colour)

  /** One entry of the activity feed: its description and its time text. */
  datatype Activity = Activity(text: string, when: string)

  /** What the scan function handed back, seen as Python sees it: something that is not a
      dictionary, or a dictionary whose keys may be missing (`None` here). `success` is
      the truthiness of `result.get("success")`. */
  datatype Reply =
    | NotADict
    | Dict(success: bool, threats: Option<seq<Threat>>, threatsCount: Option<int>, error: Option<string>)

  /** The call of the scan function: it returned, or it raised an exception with this text. */
  datatype ScanCall = Returned(reply: Reply) | Raised(message: string)

  /** The wall clock at the scan: the instant, and its "%H:%M" rendering. */
  datatype Clock = Clock(instant: string, hourMinute: string)

  /** A snapshot of the screen's state. */
  datatype DashboardView = DashboardView(
    threatsData: seq<Threat>,
    lastScanTime: Option<string>,
    totalScans: nat,
    statusText: string,
    statusColour: Colour,
    lastScanLabel: string,
    threatsCard: Card,
    scansValue: string,
    activity: seq<Activity>)

  const Now: string := "Now"
  const ProtectedStatus: string := "\U{1F7E2} System Protected"
  const CleanActivity: string := "\U{2705} System clean - no threats"
  const ErrorActivity: string := "\U{274C} Scan error occurred"
  const RefreshActivity: string := "\U{1F504} System status refreshed"
  const SettingsActivity: string := "\U{2699}\U{FE0F} Settings panel accessed"
  const ReportsActivity: string := "\U{1F4CA} Security reports viewed"
  const WarningSign: string := "\U{26A0}\U{FE0F} "
  const CrossMark: string := "\U{274C} "
  const Magnifier: string := "\U{1F50D} "

  function InProgressStatus(scanType: string): string { Magnifier + scanType + " in progress..." }
  function InitiatedActivity(scanType: string): string { Magnifier + scanType + " initiated" }
  function FailedActivity(scanType: string): string { CrossMark + scanType + " failed" }
  function DetectedActivity(n: nat): string { WarningSign + Decimal.NatToString(n) + " threats detected" }
  function FoundStatus(n: nat): string { WarningSign + Decimal.NatToString(n) + " threats found" }
  function LastScanText(hourMinute: string): string { "Last scan: Today at " + hourMinute }

  /** The screen as it is built: the cards at their defaults and three start-up entries. */
  const Initial: DashboardView := DashboardView(
    [], None, 0, ProtectedStatus, Green, "Last scan: Never",
    Card("0", Green, "All Clear", Grey), "0",
    [ Activity("\U{1F6E1}\U{FE0F} SentinelIT Mobile started", "Just now"),
      Activity("\U{1F4E1} Security definitions loaded", "2 min ago"),
      Activity("\U{1F504} Real-time protection enabled", "2 min ago") ])

  /** The scans card always shows the scan counter. */
  predicate Consistent(v: DashboardView) {
    v.scansValue == Decimal.NatToString(v.totalScans)
  }

  lemma InitialIsConsistent()
    ensures Consistent(Initial)
  {
  }

  // ---------------------------------------------------------------------------
  // Severity tallies and the threats card

  /** How many threats have severity `sev` (`sum(1 for t in threats if ...)`). */
  function Tally(threats: seq<Threat>, sev: SiemCore.Severity): (n: nat)
    ensures n <= |threats|
  {
    if threats == [] then 0
    else Tally(threats[..|threats| - 1], sev) + (if threats[|threats| - 1].severity == sev then 1 else 0)
  }

  /** Some threat has severity `sev`. */
  predicate Has(threats: seq<Threat>, sev: SiemCore.Severity) {
    exists i :: 0 <= i < |threats| && threats[i].severity == sev
  }

  /** A tally is positive exactly when a threat of that severity is present. */
  lemma {:induction false} TallyPositive(threats: seq<Threat>, sev: SiemCore.Severity)
    ensures Tally(threats, sev) > 0 <==> Has(threats, sev)
  {
    if threats != [] {
      var init := threats[..|threats| - 1];
      TallyPositive(init, sev);
      if Has(init, sev) {
        var i :| 0 <= i < |init| && init[i].severity == sev;
        assert threats[i] == init[i];
      }
      if Has(threats, sev) && threats[|threats| - 1].severity != sev {
        var i :| 0 <= i < |threats| && threats[i].severity == sev;
        assert init[i] == threats[i];
      }
    }
  }

  /** The four tallies (high, medium, low and anything else) add up to the number of threats. */
  lemma {:induction false} TalliesCoverAll(threats: seq<Threat>)
    ensures Tally(threats, SiemCore.High) + Tally(threats, SiemCore.Medium)
          + Tally(threats, SiemCore.Low) + Tally(threats, SiemCore.Unrated) == |threats|
  {
    if threats != [] {
      TalliesCoverAll(threats[..|threats| - 1]);
    }
  }

  /** The threats card for a reported count and the threat list (update_threats_card). */
  function ThreatsCard(count: int, threats: seq<Threat>): Card {
    if count > 0 then
      var value := Decimal.NatToString(count);
      var high := Tally(threats, SiemCore.High);
      var medium := Tally(threats, SiemCore.Medium);
      var low := Tally(threats, SiemCore.Low);
      if high > 0 then Card(value, Red, Decimal.NatToString(high) + " Critical", Red)
      else if medium > 0 then Card(value, Orange, Decimal.NatToString(medium) + " Medium", Orange)
      else Card(value, Yellow, Decimal.NatToString(low) + " Low Risk", Yellow)
    else
      Card("0", Green, "All Clear", Green)
  }

  /**
   * Severity precedence high > medium > low > clean: with a positive count the card is red
   * and counts the critical threats when any threat is high; otherwise orange and counts
   * the medium ones when any is medium; otherwise yellow and counts the low ones (even
   * none). With no positive count it is green "All Clear", whatever the list holds. The
   * card's number always reads back as the reported count.
   */
  lemma SeverityPrecedence(count: int, threats: seq<Threat>)
    ensures var c := ThreatsCard(count, threats);
      && c.valueColour == c.subtitleColour
      && (c.valueColour == Green <==> count <= 0)
      && (c.valueColour == Red <==> count > 0 && Has(threats, SiemCore.High))
      && (c.valueColour == Orange <==> count > 0 && !Has(threats, SiemCore.High) && Has(threats, SiemCore.Medium))
      && (c.valueColour == Yellow <==> count > 0 && !Has(threats, SiemCore.High) && !Has(threats, SiemCore.Medium))
      && (count > 0 ==> Decimal.ParseDigits(c.value) == count)
      && (count <= 0 ==> c == Card("0", Green, "All Clear", Green))
      && (c.valueColour == Red ==> c.subtitle == Decimal.NatToString(Tally(threats, SiemCore.High)) + " Critical")
      && (c.valueColour == Orange ==> c.subtitle == Decimal.NatToString(Tally(threats, SiemCore.Medium)) + " Medium")
      && (c.valueColour == Yellow ==> c.subtitle == Decimal.NatToString(Tally(threats, SiemCore.Low)) + " Low Risk")
  {
    TallyPositive(threats, SiemCore.High);
    TallyPositive(threats, SiemCore.Medium);
    if count > 0 {
      Decimal.ParseNatToString(count);
    }
  }

  // ---------------------------------------------------------------------------
  // One scan

  /** The scan counts as a success: a dictionary with a truthy "success". */
  predicate Succeeded(call: ScanCall) {
    call.Returned? && call.reply.Dict? && call.reply.success
  }

  /** `result.get("threats", [])`. */
  function ReportedThreats(reply: Reply): seq<Threat>
    requires reply.Dict?
  {
    reply.threats.GetOr([])
  }

  /** `result.get("threats_count", len(threats))`: the list's length only when the key is absent. */
  function ReportedCount(reply: Reply): (n: int)
    requires reply.Dict?
    ensures reply.threatsCount.None? ==> n == |ReportedThreats(reply)|
    ensures reply.threatsCount.Some? ==> n == reply.threatsCount.value
  {
    reply.threatsCount.GetOr(|ReportedThreats(reply)|)
  }

  /** The text after "❌ " when a scan does not succeed. */
  function FailureMessage(call: ScanCall): string {
    match call
    case Raised(m) => "Scan error: " + m
    case Returned(NotADict) => "Unknown error"
    case Returned(Dict(_, _, _, error)) => error.GetOr("Scan failed")
  }

  /** The entry `execute_scan` adds once the scan is over. */
  function OutcomeActivity(scanType: string, call: ScanCall): string {
    if Succeeded(call) then
      var n := ReportedCount(call.reply);
      if n > 0 then DetectedActivity(n) else CleanActivity
    else if call.Raised? then ErrorActivity
    else FailedActivity(scanType)
  }

  /** The screen while a scan runs: the status line says so and the feed has the
      "initiated" entry. */
  function Started(v: DashboardView, scanType: string): DashboardView {
    v.(statusText := InProgressStatus(scanType),
       statusColour := Yellow,
       activity := v.activity + [Activity(InitiatedActivity(scanType), Now)])
  }

  /** The screen once the scan function's call has turned out as `call`. A success stores
      the reported threats, stamps the time, counts the scan and refreshes the cards;
      anything else leaves all of that alone. Either way the status line is rewritten and
      the feed gains one outcome entry. */
  function Concluded(v: DashboardView, scanType: string, call: ScanCall, clock: Clock): DashboardView {
    var outcome := Activity(OutcomeActivity(scanType, call), Now);
    if Succeeded(call) then
      var threats := ReportedThreats(call.reply);
      var n := ReportedCount(call.reply);
      v.(threatsData := threats,
         lastScanTime := Some(clock.instant),
         totalScans := v.totalScans + 1,
         threatsCard := ThreatsCard(n, threats),
         scansValue := Decimal.NatToString(v.totalScans + 1),
         lastScanLabel := LastScanText(clock.hourMinute),
         statusText := if n > 0 then FoundStatus(n) else ProtectedStatus,
         statusColour := if n > 0 then Orange else Green,
         activity := v.activity + [outcome])
    else
      v.(statusText := CrossMark + FailureMessage(call),
         statusColour := Red,
         activity := v.activity + [outcome])
  }

  /** The screen after `execute_scan(scanType)` when the scan function's call turns out as `call`. */
  function ScanStep(v: DashboardView, scanType: string, call: ScanCall, clock: Clock): DashboardView {
    Concluded(Started(v, scanType), scanType, call, clock)
  }

  /**
   * What a scan does to the screen: the counter grows by one exactly on a success; a
   * failure or exception leaves the stored threats, the time and the cards alone; a
   * success stores the reported threats and shows on the threats card the reported count,
   * or the number of stored threats when no count was reported; the feed keeps its entries and gains the
   * "initiated" entry and one more; the scans card keeps showing the counter.
   */
  lemma ScanStepEffects(v: DashboardView, scanType: string, call: ScanCall, clock: Clock)
    ensures var r := ScanStep(v, scanType, call, clock);
      && r.totalScans == v.totalScans + (if Succeeded(call) then 1 else 0)
      && (!Succeeded(call) ==>
            && r.threatsData == v.threatsData && r.lastScanTime == v.lastScanTime
            && r.threatsCard == v.threatsCard && r.scansValue == v.scansValue
            && r.lastScanLabel == v.lastScanLabel)
      && (Succeeded(call) ==> r.threatsData == call.reply.threats.GetOr([]))
      && (Succeeded(call) && call.reply.threatsCount.None? ==>
            r.threatsCard == ThreatsCard(|r.threatsData|, r.threatsData))
      && (Succeeded(call) && call.reply.threatsCount.Some? ==>
            r.threatsCard == ThreatsCard(call.reply.threatsCount.value, r.threatsData))
      && |r.activity| == |v.activity| + 2 && r.activity[..|v.activity|] == v.activity
      && r.activity[|v.activity|] == Activity(InitiatedActivity(scanType), Now)
      && (Consistent(v) ==> Consistent(r))
  {
    var r := ScanStep(v, scanType, call, clock);
    assert r.activity[..|v.activity|] == v.activity;
  }

  /**
   * The status line after a scan: red "❌ <message>" exactly when the scan did not
   * succeed (the dictionary's "error", else "Scan failed"; "Unknown error" for a
   * non-dictionary; "Scan error: <text>" for an exception); orange "⚠️ n threats found"
   * exactly when it succeeded with a positive count n; green "🟢 System Protected"
   * otherwise. The outcome entry of the feed matches.
   */
  lemma StatusAfterScan(v: DashboardView, scanType: string, call: ScanCall, clock: Clock)
    ensures var r := ScanStep(v, scanType, call, clock);
      && (r.statusColour == Red <==> !Succeeded(call))
      && (r.statusColour == Orange <==> Succeeded(call) && ReportedCount(call.reply) > 0)
      && (r.statusColour == Green <==> Succeeded(call) && ReportedCount(call.reply) <= 0)
      && (!Succeeded(call) ==> r.statusText == CrossMark + FailureMessage(call))
      && (r.statusColour == Orange ==>
            && r.statusText == FoundStatus(ReportedCount(call.reply))
            && r.activity[|v.activity| + 1].text == DetectedActivity(ReportedCount(call.reply)))
      && (r.statusColour == Green ==>
            && r.statusText == ProtectedStatus
            && r.activity[|v.activity| + 1].text == CleanActivity)
      && (call.Raised? ==> r.activity[|v.activity| + 1].text == ErrorActivity)
      && (call.Returned? && !Succeeded(call) ==> r.activity[|v.activity| + 1].text == FailedActivity(scanType))
  {
  }

  /** After a success the scans card reads back as the new counter and the threats card as
      the reported count (when positive). */
  lemma CardsShowScanOutcome(v: DashboardView, scanType: string, call: ScanCall, clock: Clock)
    requires Consistent(v) && Succeeded(call)
    ensures var r := ScanStep(v, scanType, call, clock);
      && Decimal.ParseDigits(r.scansValue) == r.totalScans == v.totalScans + 1
      && (ReportedCount(call.reply) > 0 ==> Decimal.ParseDigits(r.threatsCard.value) == ReportedCount(call.reply))
  {
    Decimal.ParseNatToString(v.totalScans + 1);
    SeverityPrecedence(ReportedCount(call.reply), ReportedThreats(call.reply));
  }

  /** One requested scan: the scan type and how the scan function's call turns out. */
  datatype ScanRequest = ScanRequest(scanType: string, call: ScanCall, clock: Clock)

  /** The screen after the scans in order. */
  function ScanSeries(v: DashboardView, rs: seq<ScanRequest>): DashboardView
    decreases |rs|
  {
    if rs == [] then v
    else ScanSeries(ScanStep(v, rs[0].scanType, rs[0].call, rs[0].clock), rs[1..])
  }

  /** How many of the scans succeed. */
  function Successes(rs: seq<ScanRequest>): (n: nat)
    ensures n <= |rs|
  {
    if rs == [] then 0 else (if Succeeded(rs[0].call) then 1 else 0) + Successes(rs[1..])
  }

  /** Over any series of scans the counter grows by exactly the number of successes (not by
      the number of attempts), the feed grows by two entries per scan, and the scans card
      keeps showing the counter. */
  lemma {:induction false} ScanSeriesCounts(v: DashboardView, rs: seq<ScanRequest>)
    ensures ScanSeries(v, rs).totalScans == v.totalScans + Successes(rs)
    ensures |ScanSeries(v, rs).activity| == |v.activity| + 2 * |rs|
    ensures Consistent(v) ==> Consistent(ScanSeries(v, rs))
    decreases |rs|
  {
    if rs != [] {
      ScanStepEffects(v, rs[0].scanType, rs[0].call, rs[0].clock);
      ScanSeriesCounts(ScanStep(v, rs[0].scanType, rs[0].call, rs[0].clock), rs[1..]);
    }
  }

  // ---------------------------------------------------------------------------
  // Scans against the SIEM module

  /** The dictionary `run_siem_scan` returns, as the screen sees it. */
  function AsReply(r: SiemCore.ScanResult): (reply: Reply)
    ensures reply.Dict? && reply.success == r.success
    ensures ReportedThreats(reply) == r.threats
    ensures SiemCore.WellShaped(r) ==> ReportedCount(reply) == |r.threats|
  {
    Dict(r.success, Some(r.threats), Some(r.threatsCount), r.error)
  }

  /** The stand-in `run_siem_scan` used when the SIEM module cannot be imported. */
  function FallbackScan(now: string): (r: SiemCore.ScanResult)
    ensures SiemCore.WellShaped(r) && r.success
  {
    SiemCore.ScanResult(true, SiemCore.SyntheticThreats(now), now, 3, None)
  }

  /** The stand-in returns the same record as a scan by an initialised SIEM module. */
  lemma FallbackMatchesSiem(st: SiemCore.SiemState, now: string, epochSeconds: nat,
                            write: SiemCore.WriteOutcome, disk: map<string, SiemCore.LogEntry>)
    requires st.initSuccess
    ensures FallbackScan(now) == SiemCore.RunSiemScan(st, now, epochSeconds, write, disk).result
  {
  }

  /** The synthetic threats hold one threat of each severity. */
  lemma SyntheticTallies(now: string)
    ensures var ts := SiemCore.SyntheticThreats(now);
      && Tally(ts, SiemCore.High) == 1 && Tally(ts, SiemCore.Medium) == 1 && Tally(ts, SiemCore.Low) == 1
  {
    var ts := SiemCore.SyntheticThreats(now);
    var first, firstTwo := ts[..1], ts[..2];
    assert first[..0] == [] && firstTwo[..1] == first && ts[..2] == firstTwo;
    assert first[0].severity == SiemCore.Medium && firstTwo[1].severity == SiemCore.High
        && ts[2].severity == SiemCore.Low;
    assert Tally(first, SiemCore.High) == 0 && Tally(firstTwo, SiemCore.High) == 1;
    assert Tally(first, SiemCore.Medium) == 1 && Tally(firstTwo, SiemCore.Medium) == 1;
    assert Tally(first, SiemCore.Low) == 0 && Tally(firstTwo, SiemCore.Low) == 0;
  }

  /** A scan by an initialised SIEM module: the three threats are stored, the counter goes up
      by one, the status warns of 3 threats and the card is red with one critical threat,
      however the log write turned out. */
  lemma ScanWithInitializedSiem(v: DashboardView, scanType: string, clock: Clock,
                                st: SiemCore.SiemState, epochSeconds: nat,
                                write: SiemCore.WriteOutcome, disk: map<string, SiemCore.LogEntry>)
    requires st.initSuccess
    ensures var res := SiemCore.RunSiemScan(st, clock.instant, epochSeconds, write, disk).result;
      var r := ScanStep(v, scanType, Returned(AsReply(res)), clock);
      && r.threatsData == SiemCore.SyntheticThreats(clock.instant)
      && r.totalScans == v.totalScans + 1
      && r.statusText == WarningSign + "3 threats found" && r.statusColour == Orange
      && r.threatsCard == Card("3", Red, "1 Critical", Red)
  {
    var ts := SiemCore.SyntheticThreats(clock.instant);
    SyntheticTallies(clock.instant);
    assert Decimal.NatToString(3) == "3" && Decimal.NatToString(1) == "1";
    assert ThreatsCard(3, ts) == Card("3", Red, "1 Critical", Red);
    assert FoundStatus(3) == WarningSign + "3 threats found";
  }

  /** A scan by a SIEM module whose import failed: the status shows the init error and
      nothing but the status line and the feed changes. */
  lemma ScanWithUninitializedSiem(v: DashboardView, scanType: string, clock: Clock,
                                  st: SiemCore.SiemState, epochSeconds: nat,
                                  write: SiemCore.WriteOutcome, disk: map<string, SiemCore.LogEntry>)
    requires !st.initSuccess
    ensures var res := SiemCore.RunSiemScan(st, clock.instant, epochSeconds, write, disk).result;
      var r := ScanStep(v, scanType, Returned(AsReply(res)), clock);
      && r.statusText == CrossMark + SiemCore.FailurePrefix + SiemCore.NotInitialized + SiemCore.PyStr(st.initError)
      && r == v.(statusText := r.statusText, statusColour := Red,
                 activity := v.activity + [Activity(InitiatedActivity(scanType), Now),
                                           Activity(FailedActivity(scanType), Now)])
  {
    SiemCore.UninitializedScanFails(st, clock.instant, epochSeconds, write, disk);
  }

  // ---------------------------------------------------------------------------
  // The activity feed

  /** The feed after `auto_refresh`: one entry appended, then the oldest one dropped when the
      feed has grown beyond ten. */
  function Refreshed(feed: seq<Activity>): (r: seq<Activity>)
    ensures |feed| >= 10 ==> |r| == |feed| && r == feed[1..] + [Activity(RefreshActivity, Now)]
    ensures |feed| < 10 ==> |r| == |feed| + 1 && r == feed + [Activity(RefreshActivity, Now)]
  {
    var grown := feed + [Activity(RefreshActivity, Now)];
    if |grown| > 10 then grown[1..] else grown
  }

  /** The feed after `k` refreshes. */
  function RefreshedTimes(feed: seq<Activity>, k: nat): seq<Activity> {
    if k == 0 then feed else Refreshed(RefreshedTimes(feed, k - 1))
  }

  /** Refreshing alone fills a short feed up to ten entries and never changes the length of a
      feed of ten or more: it never brings a longer feed back down to ten. */
  lemma {:induction false} RefreshedTimesLength(feed: seq<Activity>, k: nat)
    ensures |feed| >= 10 ==> |RefreshedTimes(feed, k)| == |feed|
    ensures |feed| < 10 ==> |RefreshedTimes(feed, k)| == if |feed| + k < 10 then |feed| + k else 10
  {
    if k > 0 {
      RefreshedTimesLength(feed, k - 1);
    }
  }

  /** Scans do not trim the feed, so refreshes cannot keep it to ten entries: from the start-up
      feed, four scans and any number of refreshes leave eleven entries. */
  lemma FeedOutgrowsTen(rs: seq<ScanRequest>, k: nat)
    requires |rs| == 4
    ensures |RefreshedTimes(ScanSeries(Initial, rs).activity, k)| == 11
  {
    ScanSeriesCounts(Initial, rs);
    RefreshedTimesLength(ScanSeries(Initial, rs).activity, k);
  }

  // ---------------------------------------------------------------------------
  // The screen

  class DashboardScreen {
    var threatsData: seq<Threat>
    var lastScanTime: Option<string>
    var totalScans: nat
    var statusText: string
    var statusColour: Colour
    var lastScanLabel: string
    var threatsCard: Card
    var scansValue: string
    var activity: seq<Activity>

    function Snapshot(): DashboardView
      reads this
    {
      DashboardView(threatsData, lastScanTime, totalScans, statusText, statusColour,
                    lastScanLabel, threatsCard, scansValue, activity)
    }

    /** Builds the screen: default cards and status, then the three start-up entries. */
    constructor ()
      ensures Snapshot() == Initial
    {
      threatsData, lastScanTime, totalScans := [], None, 0;
      statusText, statusColour := ProtectedStatus, Green;
      lastScanLabel := "Last scan: Never";
      threatsCard := Card("0", Green, "All Clear", Grey);
      scansValue := "0";
      activity := [];
      new;
      AddActivityItem("\U{1F6E1}\U{FE0F} SentinelIT Mobile started", "Just now");
      AddActivityItem("\U{1F4E1} Security definitions loaded", "2 min ago");
      AddActivityItem("\U{1F504} Real-time protection enabled", "2 min ago");
    }

    /** Adds an entry to the top of the feed, which is the end of its children list. */
    method AddActivityItem(text: string, when: string)
      modifies this
      ensures Snapshot() == old(Snapshot()).(activity := old(activity) + [Activity(text, when)])
    {
      activity := activity + [Activity(text, when)];
    }

    method UpdateThreatsCard(count: int, threats: seq<Threat>)
      modifies this
      ensures Snapshot() == old(Snapshot()).(threatsCard := ThreatsCard(count, threats))
    {
      if count > 0 {
        var value := Decimal.NatToString(count);
        var high := Tally(threats, SiemCore.High);
        var medium := Tally(threats, SiemCore.Medium);
        var low := Tally(threats, SiemCore.Low);
        if high > 0 {
          threatsCard := Card(value, Red, Decimal.NatToString(high) + " Critical", Red);
        } else if medium > 0 {
          threatsCard := Card(value, Orange, Decimal.NatToString(medium) + " Medium", Orange);
        } else {
          threatsCard := Card(value, Yellow, Decimal.NatToString(low) + " Low Risk", Yellow);
        }
      } else {
        threatsCard := Card("0", Green, "All Clear", Green);
      }
    }

    method UpdateScansCard()
      modifies this
      ensures Snapshot() == old(Snapshot()).(scansValue := Decimal.NatToString(totalScans))
    {
      scansValue := Decimal.NatToString(totalScans);
    }

    /** Shows the time of the last scan, once there is one. */
    method UpdateLastScanDisplay(hourMinute: string)
      modifies this
      ensures lastScanTime.Some? ==> Snapshot() == old(Snapshot()).(lastScanLabel := LastScanText(hourMinute))
      ensures lastScanTime.None? ==> Snapshot() == old(Snapshot())
    {
      if lastScanTime.Some? {
        lastScanLabel := LastScanText(hourMinute);
      }
    }

    /** Runs a scan of the given type; `call` is how the scan function's call turns out. */
    method ExecuteScan(scanType: string, call: ScanCall, clock: Clock)
      modifies this
      ensures Snapshot() == ScanStep(old(Snapshot()), scanType, call, clock)
    {
      ghost var before := Snapshot();
      statusText := InProgressStatus(scanType);
      statusColour := Yellow;
      AddActivityItem(InitiatedActivity(scanType), Now);
      ghost var started := Snapshot();
      assert started == Started(before, scanType);
      match call {
        case Raised(m) =>
          statusText := CrossMark + ("Scan error: " + m);
          statusColour := Red;
          AddActivityItem(ErrorActivity, Now);
        case Returned(reply) =>
          if reply.Dict? && reply.success {
            var threats := reply.threats.GetOr([]);
            var threatsCount := reply.threatsCount.GetOr(|threats|);
            threatsData := threats;
            lastScanTime := Some(clock.instant);
            totalScans := totalScans + 1;
            UpdateThreatsCard(threatsCount, threats);
            UpdateScansCard();
            UpdateLastScanDisplay(clock.hourMinute);
            assert Snapshot() == started.(threatsData := threats, lastScanTime := Some(clock.instant),
                                          totalScans := started.totalScans + 1,
                                          threatsCard := ThreatsCard(threatsCount, threats),
                                          scansValue := Decimal.NatToString(started.totalScans + 1),
                                          lastScanLabel := LastScanText(clock.hourMinute));
            if threatsCount > 0 {
              AddActivityItem(DetectedActivity(threatsCount), Now);
              statusText := FoundStatus(threatsCount);
              statusColour := Orange;
            } else {
              AddActivityItem(CleanActivity, Now);
              statusText := ProtectedStatus;
              statusColour := Green;
            }
          } else {
            var errorMsg := if reply.Dict? then reply.error.GetOr("Scan failed") else "Unknown error";
            statusText := CrossMark + errorMsg;
            statusColour := Red;
            AddActivityItem(FailedActivity(scanType), Now);
          }
      }
    }

    method PerformQuickScan(call: ScanCall, clock: Clock)
      modifies this
      ensures Snapshot() == ScanStep(old(Snapshot()), "Quick Scan", call, clock)
    {
      ExecuteScan("Quick Scan", call, clock);
    }

    method PerformFullScan(call: ScanCall, clock: Clock)
      modifies this
      ensures Snapshot() == ScanStep(old(Snapshot()), "Deep Scan", call, clock)
    {
      ExecuteScan("Deep Scan", call, clock);
    }

    /** The periodic refresh: logs itself and drops the oldest entry once the feed exceeds ten. */
    method AutoRefresh()
      modifies this
      ensures Snapshot() == old(Snapshot()).(activity := Refreshed(old(activity)))
    {
      AddActivityItem(RefreshActivity, Now);
      if |activity| > 10 {
        activity := activity[1..];
      }
    }

    method OpenSettings()
      modifies this
      ensures Snapshot() == old(Snapshot()).(activity := old(activity) + [Activity(SettingsActivity, Now)])
    {
      AddActivityItem(SettingsActivity, Now);
    }

    method OpenReports()
      modifies this
      ensures Snapshot() == old(Snapshot()).(activity := old(activity) + [Activity(ReportsActivity, Now)])
    {
      AddActivityItem(ReportsActivity, Now);
    }
  }
}
