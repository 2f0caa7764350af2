/** The DOS Monitor page: its state record, the start/pause/stop/reset updaters
    and their button guards, the elapsed-time clock it shows, the status colour,
    and how a polled metrics response replaces the displayed figures. The clock
    reading (`new Date()` minus the start) is a parameter in milliseconds. */
module MonitorPage {
  import opened Shared
  import Monitor

  // ---------------------------------------------------------------------------
  // Decimal text
  // ---------------------------------------------------------------------------

  predicate IsDigit(c: char)
  {
    '0' <= c <= '9'
  }

  predicate AllDigits(s: string)
  {
    forall i :: 0 <= i < |s| ==> IsDigit(s[i])
  }

  function DigitChar(d: int): (c: char)
    requires 0 <= d < 10
    ensures IsDigit(c) && c as int - '0' as int == d
  {
    ('0' as int + d) as char
  }

  /** A number's decimal digits, without leading zeros. */
  function NatToString(n: nat): (r: string)
    ensures |r| >= 1 && AllDigits(r)
    ensures n >= 10 <==> |r| >= 2
    ensures n >= 1 ==> r[0] != '0'
    decreases n
  {
    if n < 10 then [DigitChar(n)] else NatToString(n / 10) + [DigitChar(n % 10)]
  }

  /** `Number.prototype.toString` of a whole number. */
  function IntToString(i: int): string
  {
    if i < 0 then "-" + NatToString(-i) else NatToString(i)
  }

  /** The value of a string of decimal digits. */
  function ParseDigits(s: string): nat
    requires AllDigits(s)
  {
    if s == [] then 0 else ParseDigits(s[..|s| - 1]) * 10 + (s[|s| - 1] as int - '0' as int)
  }

  lemma {:induction false} ParseNatToString(n: nat)
    ensures ParseDigits(NatToString(n)) == n
    decreases n
  {
    if n >= 10 {
      ParseNatToString(n / 10);
      var s := NatToString(n);
      assert s[..|s| - 1] == NatToString(n / 10);
    } else {
      assert NatToString(n)[..0] == [];
    }
  }

  /** Leading zeros do not change the value. */
  lemma {:induction false} ParseLeadingZero(s: string)
    requires AllDigits(s)
    ensures ParseDigits("0" + s) == ParseDigits(s)
    decreases |s|
  {
    if s == [] {
      assert ("0" + s)[..0] == [];
    } else {
      var t := s[..|s| - 1];
      ParseLeadingZero(t);
      assert ("0" + s)[..|"0" + s| - 1] == "0" + t;
    }
  }

  /** `s.padStart(width, c)`. */
  function PadStart(s: string, width: nat, c: char): (r: string)
    ensures |r| == if |s| >= width then |s| else width
    ensures r[|r| - |s|..] == s
    ensures forall i :: 0 <= i < |r| - |s| ==> r[i] == c
  {
    if |s| >= width then s else seq(width - |s|, _ => c) + s
  }

  function Pad2(s: string): string
  {
    PadStart(s, 2, '0')
  }

  /** Padding a digit string to two characters keeps it digits and keeps its value. */
  lemma PadDigits(s: string)
    requires |s| >= 1 && AllDigits(s)
    ensures AllDigits(Pad2(s)) && |Pad2(s)| >= 2
    ensures ParseDigits(Pad2(s)) == ParseDigits(s)
  {
    var r := Pad2(s);
    if |s| < 2 {
      assert |r| == 2 && r[1..] == s && r[0] == '0';
      assert r == "0" + s;
      ParseLeadingZero(s);
    } else {
      assert |r| == |s| && r[0..] == s;
      assert r == s;
    }
  }

  lemma PaddedValue(n: nat)
    ensures AllDigits(Pad2(NatToString(n)))
    ensures |Pad2(NatToString(n))| >= 2
    ensures ParseDigits(Pad2(NatToString(n))) == n
  {
    ParseNatToString(n);
    PadDigits(NatToString(n));
  }

  // ---------------------------------------------------------------------------
  // calculateDuration
  // ---------------------------------------------------------------------------

  /** JavaScript's `%`: the remainder takes the sign of the dividend. */
  function JsRem(a: int, b: int): (r: int)
    requires b > 0
    ensures a >= 0 ==> r == a % b
    ensures a < 0 ==> -b < r <= 0 && r == -((-a) % b)
  {
    if a >= 0 then a % b else -((-a) % b)
  }

  /** The quotient that goes with `%`: truncated toward zero, so the dividend
      is that quotient times the divisor plus the remainder. */
  lemma JsRemDivision(a: int, b: int)
    requires b > 0
    ensures var q := if a >= 0 then a / b else -((-a) / b);
      a == q * b + JsRem(a, b)
  {
    if a < 0 {
      var q', r' := (-a) / b, (-a) % b;
      assert -a == q' * b + r';
      assert a == (-q') * b + (-r');
    }
  }

  const MsPerHour: int := 1000 * 60 * 60
  const MsPerMinute: int := 1000 * 60

  datatype Hms = Hms(h: int, m: int, s: int)

  /** The three `Math.floor` quotients of calculateDuration. Dafny's `/` by a
      positive divisor rounds down, as `Math.floor` of the quotient does. */
  function Elapsed(diffMs: int): Hms
  {
    Hms(diffMs / MsPerHour, JsRem(diffMs, MsPerHour) / MsPerMinute, JsRem(diffMs, MsPerMinute) / 1000)
  }

  /** The `HH:MM:SS` template: each field padded to two characters. */
  function ShowHms(t: Hms): string
  {
    Pad2(IntToString(t.h)) + ":" + Pad2(IntToString(t.m)) + ":" + Pad2(IntToString(t.s))
  }

  /** calculateDuration, given the milliseconds between the start and now. */
  function CalculateDuration(startTime: string, diffMs: int): string
  {
    if startTime == "" then "00:00:00" else ShowHms(Elapsed(diffMs))
  }

  /** For a non-negative difference the clock shows whole hours, minutes below
      60 and seconds below 60 that together are the elapsed time rounded down
      to the second. */
  lemma ElapsedBounds(diffMs: int)
    requires diffMs >= 0
    ensures var t := Elapsed(diffMs);
      && t.h >= 0 && 0 <= t.m < 60 && 0 <= t.s < 60
      && t.h * 3600000 + t.m * 60000 + t.s * 1000 <= diffMs < t.h * 3600000 + t.m * 60000 + t.s * 1000 + 1000
  {
    var h, r := diffMs / 3600000, diffMs % 3600000;
    assert diffMs == h * 3600000 + r;
    var m, r2 := r / 60000, r % 60000;
    assert r == m * 60000 + r2;
    assert diffMs % 60000 == r2 by {
      assert diffMs == (h * 60 + m) * 60000 + r2;
    }
    var s := r2 / 1000;
    assert r2 == s * 1000 + r2 % 1000;
  }

  /** Splitting at every occurrence of c. */
  function Split(s: string, c: char): (r: seq<string>)
    ensures |r| >= 1
    decreases |s|
  {
    if s == [] then [""]
    else
      var rest := Split(s[1..], c);
      if s[0] == c then [""] + rest else [[s[0]] + rest[0]] + rest[1..]
  }

  lemma {:induction false} SplitNoSep(a: string, c: char)
    requires forall i :: 0 <= i < |a| ==> a[i] != c
    ensures Split(a, c) == [a]
    decreases |a|
  {
    if a != [] {
      SplitNoSep(a[1..], c);
      assert [a[0]] + a[1..] == a;
    }
  }

  lemma {:induction false} SplitAtSep(a: string, c: char, b: string)
    requires forall i :: 0 <= i < |a| ==> a[i] != c
    ensures Split(a + [c] + b, c) == [a] + Split(b, c)
    decreases |a|
  {
    if a == [] {
      assert (a + [c] + b)[1..] == b;
    } else {
      assert (a + [c] + b)[1..] == a[1..] + [c] + b;
      SplitAtSep(a[1..], c, b);
      assert [a[0]] + a[1..] == a;
    }
  }

  /** Reading `HH:MM:SS` back: three colon-separated digit fields. */
  function ParseClock(s: string): Option<Hms>
  {
    var parts := Split(s, ':');
    if |parts| == 3 && AllDigits(parts[0]) && AllDigits(parts[1]) && AllDigits(parts[2]) then
      Some(Hms(ParseDigits(parts[0]), ParseDigits(parts[1]), ParseDigits(parts[2])))
    else None
  }

  /** An empty start time always shows `00:00:00`. */
  lemma EmptyStartShowsZero(diffMs: int)
    ensures CalculateDuration("", diffMs) == "00:00:00"
    ensures ParseClock(CalculateDuration("", diffMs)) == Some(Hms(0, 0, 0))
  {
    assert "00:00:00" == "00" + ":" + "00" + ":" + "00";
    SplitThree("00", "00", "00");
    assert ParseDigits("00") == 0 by {
      assert "00"[..1] == "0";
      assert "0"[..0] == "";
    }
  }

  lemma SplitThree(a: string, b: string, c: string)
    requires forall i :: 0 <= i < |a| ==> a[i] != ':'
    requires forall i :: 0 <= i < |b| ==> b[i] != ':'
    requires forall i :: 0 <= i < |c| ==> c[i] != ':'
    ensures Split(a + ":" + b + ":" + c, ':') == [a, b, c]
  {
    assert a + ":" + b + ":" + c == a + [':'] + (b + [':'] + c);
    SplitAtSep(a, ':', b + [':'] + c);
    SplitAtSep(b, ':', c);
    SplitNoSep(c, ':');
  }

  /** Three digit fields of at least two characters, joined by colons, read
      back as the clock whose fields they spell. */
  lemma ClockOfFields(s: string, a: string, b: string, c: string, t: Hms)
    requires s == a + ":" + b + ":" + c
    requires AllDigits(a) && AllDigits(b) && AllDigits(c)
    requires |a| >= 2 && |b| >= 2 && |c| >= 2
    requires ParseDigits(a) == t.h && ParseDigits(b) == t.m && ParseDigits(c) == t.s
    ensures var parts := Split(s, ':');
      && |parts| == 3 && |parts[0]| >= 2 && |parts[1]| >= 2 && |parts[2]| >= 2
    ensures ParseClock(s) == Some(t)
  {
    SplitThree(a, b, c);
  }

  /** The `HH:MM:SS` text of non-negative fields splits into three fields of at
      least two digits that read back as the same fields. */
  lemma ShowHmsReadsBack(t: Hms)
    requires t.h >= 0 && t.m >= 0 && t.s >= 0
    ensures var parts := Split(ShowHms(t), ':');
      && |parts| == 3 && |parts[0]| >= 2 && |parts[1]| >= 2 && |parts[2]| >= 2
    ensures ParseClock(ShowHms(t)) == Some(t)
  {
    var a, b, c := Pad2(NatToString(t.h)), Pad2(NatToString(t.m)), Pad2(NatToString(t.s));
    PaddedValue(t.h);
    PaddedValue(t.m);
    PaddedValue(t.s);
    ClockOfFields(ShowHms(t), a, b, c, t);
  }

  /** Once started, the clock reads back as three fields of at least two digits
      each, with minutes and seconds below 60, that together are the elapsed
      time rounded down to the second. */
  lemma DurationReadsBack(startTime: string, diffMs: int)
    requires startTime != "" && diffMs >= 0
    ensures var parts := Split(CalculateDuration(startTime, diffMs), ':');
      && |parts| == 3 && |parts[0]| >= 2 && |parts[1]| >= 2 && |parts[2]| >= 2
    ensures var t := ParseClock(CalculateDuration(startTime, diffMs));
      && t.Some?
      && t.value.h >= 0 && 0 <= t.value.m < 60 && 0 <= t.value.s < 60
      && t.value.h * 3600000 + t.value.m * 60000 + t.value.s * 1000 <= diffMs
      && diffMs < t.value.h * 3600000 + t.value.m * 60000 + t.value.s * 1000 + 1000
  {
    ElapsedBounds(diffMs);
    ShowHmsReadsBack(Elapsed(diffMs));
  }

  // ---------------------------------------------------------------------------
  // Page state and the control updaters
  // ---------------------------------------------------------------------------

  /** One point of the requests chart. */
  datatype Point = Point(timestamp: int, requests: real, errors: int, responseTime: real)

  datatype CodeShare = CodeShare(code: string, count: real, percentage: real)

  /** The page's `metrics` record. */
  datatype Metrics = Metrics(
    requestsPerSecond: real,
    totalRequests: real,
    activeConnections: real,
    averageResponseTime: real,
    successRate: real,
    errorRate: real,
    targetUrl: string,
    status: Monitor.Status,
    startTime: string,
    duration: string,
    requestsHistory: seq<Point>,
    responseCodes: seq<CodeShare>)

  datatype Page = Page(metrics: Metrics, isConnected: bool)

  const DefaultTarget: string := "http://friend-server.com"

  /** The state the page mounts with. */
  const Initial: Page :=
    Page(Metrics(0.0, 0.0, 0.0, 0.0, 100.0, 0.0, DefaultTarget, Monitor.Stopped, "", "00:00:00", [], []), false)

  function StartAttack(p: Page, nowIso: string): (r: Page)
    ensures r.metrics.status == Monitor.Running && r.metrics.startTime == nowIso
    ensures r.metrics.requestsHistory == [] && r.isConnected
    ensures r.metrics.(status := p.metrics.status, startTime := p.metrics.startTime,
                       requestsHistory := p.metrics.requestsHistory) == p.metrics
  {
    Page(p.metrics.(status := Monitor.Running, startTime := nowIso, requestsHistory := []), true)
  }

  function StopAttack(p: Page): (r: Page)
    ensures r.metrics.status == Monitor.Stopped && !r.isConnected
    ensures r.metrics.(status := p.metrics.status) == p.metrics
  {
    Page(p.metrics.(status := Monitor.Stopped), false)
  }

  function PauseAttack(p: Page): (r: Page)
    ensures r.metrics.status == Monitor.Paused
    ensures r.metrics.(status := p.metrics.status) == p.metrics && r.isConnected == p.isConnected
  {
    p.(metrics := p.metrics.(status := Monitor.Paused))
  }

  /** resetMetrics: every figure back to its initial value except the target,
      and disconnected. */
  function ResetMetrics(p: Page): (r: Page)
    ensures r == Initial.(metrics := Initial.metrics.(targetUrl := p.metrics.targetUrl))
  {
    Page(p.metrics.(
           requestsPerSecond := 0.0, totalRequests := 0.0, activeConnections := 0.0,
           averageResponseTime := 0.0, successRate := 100.0, errorRate := 0.0,
           status := Monitor.Stopped, startTime := "", duration := "00:00:00",
           requestsHistory := [], responseCodes := []),
         false)
  }

  lemma ResetIdempotent(p: Page)
    ensures ResetMetrics(ResetMetrics(p)) == ResetMetrics(p)
    ensures ResetMetrics(Initial) == Initial
  {
  }

  datatype Control = Start | Pause | Stop | Reset

  /** The `disabled` props of the four buttons, negated. */
  predicate Enabled(status: Monitor.Status, c: Control)
  {
    match c
    case Start => status != Monitor.Running
    case Pause => status == Monitor.Running
    case Stop => status != Monitor.Stopped
    case Reset => true
  }

  /** A click: an enabled button runs its updater, a disabled one does nothing. */
  function Press(p: Page, c: Control, nowIso: string): Page
  {
    if !Enabled(p.metrics.status, c) then p
    else match c
      case Start => StartAttack(p, nowIso)
      case Pause => PauseAttack(p)
      case Stop => StopAttack(p)
      case Reset => ResetMetrics(p)
  }

  /** Start and Pause are never enabled together, and exactly one of them is
      enabled in every state; Stop is enabled unless already stopped. */
  lemma GuardsComplement(status: Monitor.Status)
    ensures Enabled(status, Start) <==> !Enabled(status, Pause)
    ensures Enabled(status, Stop) <==> status != Monitor.Stopped
  {
  }

  /** Through the controls, the attack becomes paused only from running, and
      only by the Pause button. */
  lemma PausedOnlyFromRunning(p: Page, c: Control, nowIso: string)
    requires p.metrics.status != Monitor.Paused
    requires Press(p, c, nowIso).metrics.status == Monitor.Paused
    ensures p.metrics.status == Monitor.Running && c == Pause
  {
  }

  /** A sequence of clicks, in order. */
  function PressAll(p: Page, cs: seq<Control>, nowIso: string): Page
    decreases |cs|
  {
    if cs == [] then p else PressAll(Press(p, cs[0], nowIso), cs[1..], nowIso)
  }

  /** No sequence of clicks changes the target, and the response-code list is
      either kept or emptied by a reset. */
  lemma {:induction false} ClicksKeepTarget(p: Page, cs: seq<Control>, nowIso: string)
    ensures PressAll(p, cs, nowIso).metrics.targetUrl == p.metrics.targetUrl
    ensures PressAll(p, cs, nowIso).metrics.responseCodes == [] || PressAll(p, cs, nowIso).metrics.responseCodes == p.metrics.responseCodes
    decreases |cs|
  {
    if cs != [] {
      var q := Press(p, cs[0], nowIso);
      ClicksKeepTarget(q, cs[1..], nowIso);
    }
  }

  // ---------------------------------------------------------------------------
  // Status colour
  // ---------------------------------------------------------------------------

  function StatusColor(status: string): string
  {
    if status == "running" then "bg-green-500"
    else if status == "paused" then "bg-yellow-500"
    else if status == "stopped" then "bg-red-500"
    else "bg-gray-500"
  }

  /** The three statuses get three different colours, none of them the grey
      reserved for anything else. */
  lemma StatusColorsDistinct(a: Monitor.Status, b: Monitor.Status)
    ensures StatusColor(a.Name()) != "bg-gray-500"
    ensures a != b ==> StatusColor(a.Name()) != StatusColor(b.Name())
  {
  }

  // ---------------------------------------------------------------------------
  // Polling
  // ---------------------------------------------------------------------------

  /** JavaScript's `x || d` for a number: a missing value and 0 are falsy. */
  function OrNum(x: Option<real>, d: real): real
  {
    if x.None? || x.value == 0.0 then d else x.value
  }

  /** JavaScript's `x || d` for a string: a missing value and "" are falsy. */
  function OrText(x: Option<string>, d: string): string
  {
    if x.None? || x.value == "" then d else x.value
  }

  /** `Math.floor((error_rate / 100) * requests_per_second)`. */
  function ChartErrors(errorRate: real, rps: real): int
  {
    (errorRate / 100.0 * rps).Floor
  }

  lemma ChartErrorsBounds(errorRate: real, rps: real)
    requires 0.0 <= errorRate <= 100.0 && rps >= 0.0
    ensures 0 <= ChartErrors(errorRate, rps) <= rps.Floor
  {
    assert 0.0 <= errorRate / 100.0 * rps <= rps by {
      assert rps - errorRate / 100.0 * rps == (1.0 - errorRate / 100.0) * rps;
    }
  }

  function ToPoint(e: Monitor.HistoryEntry): Point
  {
    var rps := OrNum(Some(e.requestsPerSecond), 0.0);
    Point(e.timestamp, rps, ChartErrors(e.errorRate, rps), OrNum(Some(e.averageResponseTime), 0.0))
  }

  /** The outcome of one poll: a decoded getMetrics response, a response that is
      not `ok`, or a failure that throws. */
  datatype Poll = Answered(view: Monitor.MetricsView) | NotOk | Threw

  /** The updater of a successful poll. An absent snapshot arrives as `[]`,
      which is truthy, so every field then takes its `||` default. */
  function ApplyCurrent(prev: Metrics, view: Monitor.MetricsView, diffMs: int): Metrics
  {
    var cur := view.current;
    var startTime := OrText(if cur.Some? then cur.value.startTime else None, "");
    prev.(
      requestsPerSecond := OrNum(if cur.Some? then Some(cur.value.requestsPerSecond) else None, 0.0),
      totalRequests := OrNum(if cur.Some? then Some(cur.value.totalRequests) else None, 0.0),
      activeConnections := OrNum(if cur.Some? then Some(cur.value.activeConnections) else None, 0.0),
      averageResponseTime := OrNum(if cur.Some? then Some(cur.value.averageResponseTime) else None, 0.0),
      successRate := OrNum(if cur.Some? then Some(cur.value.successRate) else None, 100.0),
      errorRate := OrNum(if cur.Some? then Some(cur.value.errorRate) else None, 0.0),
      targetUrl := OrText(if cur.Some? then Some(cur.value.targetUrl) else None, DefaultTarget),
      status := if cur.Some? then cur.value.status else Monitor.Stopped,
      startTime := startTime,
      duration := if startTime != "" then CalculateDuration(startTime, diffMs) else "00:00:00",
      requestsHistory := seq(|view.history|, i requires 0 <= i < |view.history| => ToPoint(view.history[i])))
  }

  function OnPoll(p: Page, poll: Poll, diffMs: int): Page
  {
    match poll
    case Answered(view) => Page(ApplyCurrent(p.metrics, view, diffMs), true)
    case NotOk => p
    case Threw => p.(isConnected := false)
  }

  /** A poll never touches the response-code list; an answer connects, a throw
      disconnects and changes nothing else, a non-ok answer changes nothing. */
  lemma PollFrame(p: Page, poll: Poll, diffMs: int)
    ensures OnPoll(p, poll, diffMs).metrics.responseCodes == p.metrics.responseCodes
    ensures poll.Answered? ==> OnPoll(p, poll, diffMs).isConnected
    ensures poll.Threw? ==> OnPoll(p, poll, diffMs) == p.(isConnected := false)
    ensures poll.NotOk? ==> OnPoll(p, poll, diffMs) == p
  {
  }

  /** A stored success rate of 0 is displayed as 100; any other is shown as is.
      The displayed status and counters are the snapshot's. */
  lemma PolledSnapshot(prev: Metrics, view: Monitor.MetricsView, diffMs: int)
    requires view.current.Some?
    ensures var m := ApplyCurrent(prev, view, diffMs);
      && (view.current.value.successRate == 0.0 ==> m.successRate == 100.0)
      && (view.current.value.successRate != 0.0 ==> m.successRate == view.current.value.successRate)
      && m.requestsPerSecond == view.current.value.requestsPerSecond
      && m.totalRequests == view.current.value.totalRequests
      && m.status == view.current.value.status
  {
  }

  /** With no live snapshot every displayed figure falls back to the initial
      one; only the chart is taken from the history and the code list kept. */
  lemma PolledNothing(prev: Metrics, view: Monitor.MetricsView, diffMs: int)
    requires view.current.None?
    ensures ApplyCurrent(prev, view, diffMs).(requestsHistory := [], responseCodes := [])
            == Initial.metrics
  {
  }

  /** The chart has one point per history entry, in order, each counting
      between 0 and its own request rate as errors when the stored rates are in
      range. */
  lemma PolledChart(prev: Metrics, view: Monitor.MetricsView, diffMs: int, i: int)
    requires 0 <= i < |view.history|
    ensures var pts := ApplyCurrent(prev, view, diffMs).requestsHistory;
      var e := view.history[i];
      && |pts| == |view.history|
      && pts[i].timestamp == e.timestamp
      && pts[i].requests == e.requestsPerSecond
      && pts[i].errors == (e.errorRate / 100.0 * e.requestsPerSecond).Floor
      && pts[i].responseTime == e.averageResponseTime
      && (0.0 <= e.errorRate <= 100.0 && e.requestsPerSecond >= 0.0 ==>
            0 <= pts[i].errors <= e.requestsPerSecond.Floor)
  {
    var e := view.history[i];
    if 0.0 <= e.errorRate <= 100.0 && e.requestsPerSecond >= 0.0 {
      ChartErrorsBounds(e.errorRate, e.requestsPerSecond);
    }
  }
}
