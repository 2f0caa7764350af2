/** The live dashboard page's helpers: the byte-count label, the success-rate
    colour, and the chart series drawn from the last 50 samples. */
module DashboardPage {
  import opened Shared

  // ---------------------------------------------------------------------------
  // formatBytes
  // ---------------------------------------------------------------------------

  const Kilo: nat := 1024
  const Sizes: seq<string> := ["B", "KB", "MB", "GB"]

  function Pow(i: nat): (r: nat)
    ensures r >= 1
  {
    if i == 0 then 1 else Kilo * Pow(i - 1)
  }

  /** `Math.floor(Math.log(bytes) / Math.log(1024))` for a whole positive count:
      how many times 1024 divides into it. */
  function UnitIndex(bytes: int): nat
    requires bytes >= 1
    decreases bytes
  {
    if bytes < Kilo then 0 else 1 + UnitIndex(bytes / Kilo)
  }

  lemma {:induction false} UnitIndexBounds(bytes: int)
    requires bytes >= 1
    ensures Pow(UnitIndex(bytes)) <= bytes < Pow(UnitIndex(bytes) + 1)
    decreases bytes
  {
    if bytes >= Kilo {
      var q := bytes / Kilo;
      UnitIndexBounds(q);
      var j := UnitIndex(q);
      assert Pow(j) <= q < Pow(j + 1);
      assert Kilo * q <= bytes < Kilo * (q + 1);
      assert Kilo * Pow(j) <= Kilo * q;
      assert Kilo * (q + 1) <= Kilo * Pow(j + 1);
    }
  }

  lemma {:induction false} PowMonotone(i: nat, j: nat)
    requires i <= j
    ensures Pow(i) <= Pow(j)
    decreases j
  {
    if i < j {
      PowMonotone(i, j - 1);
    }
  }

  /** The index is the one power band the count falls in: it is i exactly when
      `1024^i <= bytes < 1024^(i+1)`. */
  lemma UnitIndexUnique(bytes: int, i: nat)
    requires bytes >= 1
    ensures UnitIndex(bytes) == i <==> Pow(i) <= bytes < Pow(i + 1)
  {
    UnitIndexBounds(bytes);
    var k := UnitIndex(bytes);
    if Pow(i) <= bytes < Pow(i + 1) && k != i {
      if k < i {
        PowMonotone(k + 1, i);
      } else {
        PowMonotone(i + 1, k);
      }
    }
  }

  /** The label formatBytes renders: an amount and a unit (`undefined` once the
      index runs past the table), or NaN for a negative count. The amount is
      shown after `toFixed(2)`, which is not modelled. */
  datatype ByteLabel = Label(amount: real, unit: Option<string>) | NotANumber

  function FormatBytes(bytes: int): ByteLabel
  {
    if bytes == 0 then Label(0.0, Some("B"))
    else if bytes < 0 then NotANumber
    else
      var i := UnitIndex(bytes);
      Label(bytes as real / Pow(i) as real, if i < |Sizes| then Some(Sizes[i]) else None)
  }

  lemma ScaledAmount(bytes: int, p: nat)
    requires p >= 1 && p <= bytes < Kilo * p
    ensures 1.0 <= bytes as real / p as real < 1024.0
  {
    var x := bytes as real / p as real;
    assert x * p as real == bytes as real;
  }

  /** Zero is `0 B`; a count below 1024^4 is shown as an amount in [1, 1024)
      of the unit whose band holds it; from 1024^4 on the unit is missing. */
  lemma FormatBytesUnits(bytes: int)
    ensures bytes == 0 ==> FormatBytes(bytes) == Label(0.0, Some("B"))
    ensures bytes < 0 ==> FormatBytes(bytes).NotANumber?
    ensures bytes >= 1 ==>
      var l := FormatBytes(bytes);
      && l.Label?
      && 1.0 <= l.amount < 1024.0
      && (l.unit.Some? <==> bytes < Pow(4))
      && (forall i: nat :: i < 4 && Pow(i) <= bytes < Pow(i + 1) ==> l.unit == Some(Sizes[i]))
  {
    if bytes >= 1 {
      var i := UnitIndex(bytes);
      UnitIndexBounds(bytes);
      ScaledAmount(bytes, Pow(i));
      if i < 4 {
        PowMonotone(i + 1, 4);
      } else {
        PowMonotone(4, i);
      }
      forall j: nat | j < 4 && Pow(j) <= bytes < Pow(j + 1)
        ensures FormatBytes(bytes).unit == Some(Sizes[j])
      {
        UnitIndexUnique(bytes, j);
      }
    }
  }

  // ---------------------------------------------------------------------------
  // getStatusColor
  // ---------------------------------------------------------------------------

  function SuccessColor(successRate: real): string
  {
    if successRate >= 90.0 then "bg-green-500"
    else if successRate >= 70.0 then "bg-yellow-500"
    else "bg-red-500"
  }

  /** Red, yellow, green, from worst to best. */
  function ColorRank(color: string): int
  {
    if color == "bg-green-500" then 2 else if color == "bg-yellow-500" then 1 else 0
  }

  /** A higher success rate never gets a worse colour. */
  lemma SuccessColorMonotone(a: real, b: real)
    requires a <= b
    ensures ColorRank(SuccessColor(a)) <= ColorRank(SuccessColor(b))
  {
  }

  // ---------------------------------------------------------------------------
  // chartData
  // ---------------------------------------------------------------------------

  const ChartWindow: nat := 50

  /** One sample as the dashboard receives it. */
  datatype DosMetrics = DosMetrics(
    requestsPerSecond: real,
    totalRequests: real,
    activeConnections: real,
    targetUrl: string,
    timestamp: int,
    responseTimeAvg: real,
    successRate: real,
    errorCount: real,
    bytesSent: real,
    bytesReceived: real)

  /** One chart point; `time` is the sample's timestamp before it is rendered
      as a local time of day. */
  datatype ChartPoint = ChartPoint(time: int, rps: real, connections: real, responseTime: real, successRate: real)

  function PointOf(m: DosMetrics): ChartPoint
  {
    ChartPoint(m.timestamp, m.requestsPerSecond, m.activeConnections, m.responseTimeAvg, m.successRate)
  }

  /** `historicalData.slice(-50).map(...)`: at most 50 points, one per sample of
      the last 50, in order, each copying its sample's figures. */
  function ChartData(history: seq<DosMetrics>): (r: seq<ChartPoint>)
    ensures |r| == Min(|history|, ChartWindow)
    ensures forall i :: 0 <= i < |r| ==>
      var m := history[|history| - |r| + i];
      && r[i].time == m.timestamp && r[i].rps == m.requestsPerSecond
      && r[i].connections == m.activeConnections && r[i].responseTime == m.responseTimeAvg
      && r[i].successRate == m.successRate
  {
    var w := LastN(history, ChartWindow);
    seq(|w|, i requires 0 <= i < |w| => PointOf(w[i]))
  }

  /** A new sample becomes the right-most point; the window then slides by one
      once full. */
  lemma ChartDataAppend(history: seq<DosMetrics>, m: DosMetrics)
    ensures var r := ChartData(history + [m]);
      && r[|r| - 1] == PointOf(m)
      && (|history| >= ChartWindow ==> r[..|r| - 1] == ChartData(history)[1..])
      && (|history| < ChartWindow ==> r[..|r| - 1] == ChartData(history))
  {
    var r, s := ChartData(history + [m]), ChartData(history);
    assert (history + [m])[|history|] == m;
    if |history| >= ChartWindow {
      assert |r[..|r| - 1]| == |s[1..]|;
      forall i | 0 <= i < |r| - 1
        ensures r[i] == s[1..][i]
      {
        assert (history + [m])[|history| + 1 - |r| + i] == history[|history| - |s| + i + 1];
      }
    } else {
      forall i | 0 <= i < |r| - 1
        ensures r[i] == s[i]
      {
        assert (history + [m])[i] == history[i];
      }
    }
  }
}
