/** The standalone metrics sender: a start/stop switch and a sample generator
    whose random draws are parameters here. The post and the timed loop around
    it are not modelled; the instant `start_attack` records is a parameter. */
module MetricsSender {
  import opened Shared
  import Monitor

  const MetricsPath: string := "/api/dos/metrics"

  /** The values `random` supplies for one running sample: `randint(500, 2000)`,
      `uniform(0.8, 1.2)` and `uniform(0.3, 0.7)`. */
  datatype Draws = Draws(baseRps: int, rpsVariation: real, connectionFactor: real)

  predicate DrawsInRange(d: Draws)
  {
    && 500 <= d.baseRps <= 2000
    && 0.8 <= d.rpsVariation <= 1.2
    && 0.3 <= d.connectionFactor <= 0.7
  }

  datatype ErrorCount = ErrorCount(kind: string, count: int)
  datatype CodeCount = CodeCount(code: string, count: int, percentage: real)

  /** The dictionary generate_metrics returns. */
  datatype Sample = Sample(
    requestsPerSecond: int,
    totalRequests: int,
    activeConnections: int,
    averageResponseTime: real,
    successRate: real,
    errorRate: real,
    targetUrl: string,
    status: Monitor.Status,
    startTime: Option<string>,
    errors: seq<ErrorCount>,
    responseCodes: seq<CodeCount>)

  /** Python's `int()` of a float: drops the fraction, rounding toward zero. */
  function Trunc(x: real): int
  {
    if x >= 0.0 then x.Floor else -((-x).Floor)
  }

  /** `int()` of a non-negative float is the whole number just below it. */
  lemma TruncBounds(x: real)
    requires x >= 0.0
    ensures 0 <= Trunc(x)
    ensures Trunc(x) as real <= x < Trunc(x) as real + 1.0
  {
  }

  /** `int()` rounds toward zero: the result has the sign of x and is the whole
      number next to x on the side of zero. */
  lemma TruncTowardZero(x: real)
    ensures x >= 0.0 ==> 0 <= Trunc(x) && Trunc(x) as real <= x < Trunc(x) as real + 1.0
    ensures x < 0.0 ==> Trunc(x) <= 0 && Trunc(x) as real - 1.0 < x <= Trunc(x) as real
  {
  }

  /** An integer count times a float. It is written as n repeated additions of
      f (of -f when n is negative), not as `n as real * f`, so that the proofs
      about generate_metrics do not hand the solver a product of two unknowns,
      which it does not finish within its budget; TimesIsProduct, just below,
      shows it is that product. */
  function Times(n: int, f: real): real
    decreases if n < 0 then -n else n
  {
    if n == 0 then 0.0 else if n > 0 then Times(n - 1, f) + f else Times(n + 1, f) - f
  }

  lemma {:induction false} TimesIsProduct(n: int, f: real)
    ensures Times(n, f) == n as real * f
    decreases if n < 0 then -n else n
  {
    if n > 0 {
      TimesIsProduct(n - 1, f);
    } else if n < 0 {
      TimesIsProduct(n + 1, f);
    }
  }

  /** `50 + rps / 1000 * 150`: slower under load. */
  function ResponseTimeFor(rps: int): real
  {
    50.0 + rps as real / 1000.0 * 150.0
  }

  /** `max(70, 100 - rps / 1000 * 20)`: more errors under load, floored at 70. */
  function SuccessRateFor(rps: int): real
  {
    var r := 100.0 - rps as real / 1000.0 * 20.0;
    if r >= 70.0 then r else 70.0
  }

  /** `rps * rate / 100`: the requests per second that fall in a share of
      `rate` percent. */
  function Load(rps: int, rate: real): real
  {
    Times(rps, rate) / 100.0
  }

  /** The `errors` list: the error load split 40/30/20/10 over four kinds. */
  function ErrorBreakdown(errorLoad: real): seq<ErrorCount>
  {
    [ErrorCount("connection_timeout", Trunc(errorLoad * 0.4)),
     ErrorCount("server_error_500", Trunc(errorLoad * 0.3)),
     ErrorCount("rate_limited_429", Trunc(errorLoad * 0.2)),
     ErrorCount("other_errors", Trunc(errorLoad * 0.1))]
  }

  /** The `response_codes` list: 200 for the success load, the error load split
      over 500, 429, timeout and other as in the `errors` list. */
  function CodeBreakdown(successLoad: real, errorLoad: real, success: real, error: real): seq<CodeCount>
  {
    [CodeCount("200", Trunc(successLoad), success),
     CodeCount("500", Trunc(errorLoad * 0.3), error * 0.3),
     CodeCount("429", Trunc(errorLoad * 0.2), error * 0.2),
     CodeCount("timeout", Trunc(errorLoad * 0.4), error * 0.4),
     CodeCount("other", Trunc(errorLoad * 0.1), error * 0.1)]
  }

  /** generate_metrics as a function of the sender's state and the draws: the
      sample and the new request total. */
  function Generate(isRunning: bool, targetUrl: string, startTime: Option<string>, total: int, d: Draws): (Sample, int)
  {
    if !isRunning then
      (Sample(0, total, 0, 0.0, 100.0, 0.0, targetUrl, Monitor.Stopped, startTime, [], []), total)
    else
      var rps := Trunc(Times(d.baseRps, d.rpsVariation));
      var success := SuccessRateFor(rps);
      var error := 100.0 - success;
      var connections := Trunc(Times(rps, d.connectionFactor));
      (Sample(rps, total + rps, connections, ResponseTimeFor(rps), success, error,
              targetUrl, Monitor.Running, startTime,
              ErrorBreakdown(Load(rps, error)), CodeBreakdown(Load(rps, success), Load(rps, error), success, error)),
       total + rps)
  }

  lemma MulNonneg(x: real, y: real)
    requires x >= 0.0 && y >= 0.0
    ensures x * y >= 0.0
  {
  }

  lemma ProductRange(b: real, v: real)
    requires 500.0 <= b <= 2000.0 && 0.8 <= v <= 1.2
    ensures 400.0 <= b * v <= 2400.0
  {
    MulNonneg(b - 500.0, v);
    assert (b - 500.0) * v == b * v - 500.0 * v;
    MulNonneg(2000.0 - b, v);
    assert (2000.0 - b) * v == 2000.0 * v - b * v;
  }

  /** `int(base_rps * rps_variation)` lies between 400 and 2400. */
  lemma RpsRange(d: Draws)
    requires DrawsInRange(d)
    ensures 400 <= Trunc(Times(d.baseRps, d.rpsVariation)) <= 2400
  {
    TimesIsProduct(d.baseRps, d.rpsVariation);
    ProductRange(d.baseRps as real, d.rpsVariation);
    TruncBounds(Times(d.baseRps, d.rpsVariation));
  }

  /** `int(requests_per_second * uniform(0.3, 0.7))` never exceeds the rate. */
  lemma ConnectionsRange(rps: int, factor: real)
    requires rps >= 0 && 0.3 <= factor <= 0.7
    ensures 0 <= Trunc(Times(rps, factor)) <= rps
  {
    TimesIsProduct(rps, factor);
    var r := rps as real;
    MulNonneg(r, factor);
    MulNonneg(r, 1.0 - factor);
    assert r * (1.0 - factor) == r - r * factor;
    TruncBounds(Times(rps, factor));
  }

  /** What generate_metrics promises of a sample: a stopped sender reports zero
      load, a full success rate and its unchanged total; a running one adds the
      drawn rate to its total, stays within the ranges the draws allow and
      splits 100% between successes and errors. */
  lemma {:induction false} GenerateBounds(isRunning: bool, targetUrl: string, startTime: Option<string>, total: int, d: Draws)
    requires isRunning ==> DrawsInRange(d)
    ensures var r := Generate(isRunning, targetUrl, startTime, total, d);
      && (!isRunning ==> r == (Sample(0, total, 0, 0.0, 100.0, 0.0, targetUrl, Monitor.Stopped, startTime, [], []), total))
      && (isRunning ==>
        && r.1 == total + r.0.requestsPerSecond
        && r.0.totalRequests == r.1
        && r.0.status == Monitor.Running
        && r.0.targetUrl == targetUrl && r.0.startTime == startTime
        && 400 <= r.0.requestsPerSecond <= 2400
        && 0 <= r.0.activeConnections <= r.0.requestsPerSecond
        && 70.0 <= r.0.successRate <= 100.0
        && 0.0 <= r.0.errorRate <= 30.0
        && r.0.successRate + r.0.errorRate == 100.0
        && r.0.averageResponseTime >= 50.0)
  {
    if isRunning {
      RpsRange(d);
      ConnectionsRange(Trunc(Times(d.baseRps, d.rpsVariation)), d.connectionFactor);
    }
  }

  /** For a non-negative rate, the success load and the error load are
      non-negative and together make up the whole rate. */
  lemma LoadShares(rps: int, success: real, error: real)
    requires rps >= 0 && success >= 0.0 && error >= 0.0 && success + error == 100.0
    ensures Load(rps, success) >= 0.0 && Load(rps, error) >= 0.0
    ensures Load(rps, success) + Load(rps, error) == rps as real
  {
    TimesIsProduct(rps, success);
    TimesIsProduct(rps, error);
    assert rps as real * success + rps as real * error == rps as real * (success + error);
  }

  /** The per-kind error counts never add up to more than the error load, and
      the response-code counts never add up to more than the requests sent in
      the second: each count is rounded down. */
  lemma BreakdownWithinRate(rps: int, success: real, error: real)
    requires rps >= 0 && success >= 0.0 && error >= 0.0 && success + error == 100.0
    ensures var es := ErrorBreakdown(Load(rps, error));
      && |es| == 4
      && (forall i :: 0 <= i < 4 ==> es[i].count >= 0)
      && (es[0].count + es[1].count + es[2].count + es[3].count) as real <= Load(rps, error)
    ensures var cs := CodeBreakdown(Load(rps, success), Load(rps, error), success, error);
      && |cs| == 5
      && (forall i :: 0 <= i < 5 ==> cs[i].count >= 0)
      && cs[0].count + cs[1].count + cs[2].count + cs[3].count + cs[4].count <= rps
  {
    var sl, el := Load(rps, success), Load(rps, error);
    LoadShares(rps, success, error);
    TruncBounds(sl);
    TruncBounds(el * 0.4);
    TruncBounds(el * 0.3);
    TruncBounds(el * 0.2);
    TruncBounds(el * 0.1);
  }

  /** More load never means a faster reported response or a higher success rate. */
  lemma LoadMonotone(rps1: int, rps2: int)
    requires rps1 <= rps2
    ensures ResponseTimeFor(rps1) <= ResponseTimeFor(rps2)
    ensures SuccessRateFor(rps2) <= SuccessRateFor(rps1)
  {
  }

  /** The fields of the JSON body a sample is posted as. */
  function SampleFields(s: Sample): Monitor.Fields
  {
    Monitor.Fields(
      s.requestsPerSecond as real, s.totalRequests as real, s.activeConnections as real,
      s.averageResponseTime, s.successRate, s.errorRate, s.targetUrl, s.status,
      if s.startTime.Some? then Monitor.Given(s.startTime.value) else Monitor.Null,
      Some(JArr(seq(|s.errors|, i requires 0 <= i < |s.errors| =>
        JObj(map["type" := JStr(s.errors[i].kind), "count" := JNum(s.errors[i].count as real)])))),
      Some(JArr(seq(|s.responseCodes|, i requires 0 <= i < |s.responseCodes| =>
        JObj(map["code" := JStr(s.responseCodes[i].code),
                 "count" := JNum(s.responseCodes[i].count as real),
                 "percentage" := JNum(s.responseCodes[i].percentage)])))))
  }

  /** The JSON body a sample is posted as. */
  function Body(s: Sample): Payload
  {
    Monitor.ToPayload(SampleFields(s))
  }

  /** Every sample the sender generates, running or not, passes storeMetrics'
      rules once the target is a URL, and is stored. */
  lemma {:induction false} GeneratedSampleAccepted(
    isRunning: bool, targetUrl: string, startTime: Option<string>, total: int, d: Draws,
    c: Monitor.CacheState, isUrl: string -> bool, now: int)
    requires total >= 0
    requires isRunning ==> DrawsInRange(d)
    requires Monitor.ValidUrl(targetUrl, isUrl)
    ensures Monitor.StoreSpec(c, Body(Generate(isRunning, targetUrl, startTime, total, d).0), isUrl, now).1
            == Monitor.Stored(now)
  {
    var s := Generate(isRunning, targetUrl, startTime, total, d).0;
    GenerateBounds(isRunning, targetUrl, startTime, total, d);
    Monitor.ValidateToPayload(SampleFields(s), isUrl);
  }

  class DosMetricsSender {
    const dashboardUrl: string
    const targetUrl: string
    var startTime: Option<string>
    var totalRequests: int
    var isRunning: bool

    ghost predicate Valid()
      reads this
    {
      totalRequests >= 0
    }

    constructor (dashboardUrl: string, targetUrl: string)
      ensures Valid()
      ensures this.dashboardUrl == RStrip(dashboardUrl, '/') && this.targetUrl == targetUrl
      ensures startTime == None && totalRequests == 0 && !isRunning
      ensures MetricsUrl() == RStrip(dashboardUrl, '/') + "/api/dos/metrics"
    {
      this.dashboardUrl := RStrip(dashboardUrl, '/');
      this.targetUrl := targetUrl;
      startTime, totalRequests, isRunning := None, 0, false;
    }

    /** Where send_metrics posts. */
    function MetricsUrl(): string
    {
      dashboardUrl + MetricsPath
    }

    /** start_attack: running from now on, with `now` recorded as the start. */
    method StartAttack(now: string)
      requires Valid()
      modifies this`isRunning, this`startTime
      ensures Valid()
      ensures isRunning && startTime == Some(now)
      ensures totalRequests == old(totalRequests)
    {
      isRunning := true;
      startTime := Some(now);
    }

    /** stop_attack: not running; the start time and the total are kept. */
    method StopAttack()
      requires Valid()
      modifies this`isRunning
      ensures Valid()
      ensures !isRunning
      ensures startTime == old(startTime) && totalRequests == old(totalRequests)
    {
      isRunning := false;
    }

    /** generate_metrics. */
    method GenerateMetrics(d: Draws) returns (s: Sample)
      requires Valid()
      requires isRunning ==> DrawsInRange(d)
      modifies this`totalRequests
      ensures Valid()
      ensures (s, totalRequests) == Generate(isRunning, targetUrl, startTime, old(totalRequests), d)
    {
      if !isRunning {
        return Sample(0, totalRequests, 0, 0.0, 100.0, 0.0, targetUrl, Monitor.Stopped, startTime, [], []);
      }
      RpsRange(d);
      var rps := Trunc(Times(d.baseRps, d.rpsVariation));
      totalRequests := totalRequests + rps;
      var successRate := SuccessRateFor(rps);
      var errorRate := 100.0 - successRate;
      var activeConnections := Trunc(Times(rps, d.connectionFactor));
      var errors := ErrorBreakdown(Load(rps, errorRate));
      var responseCodes := CodeBreakdown(Load(rps, successRate), Load(rps, errorRate), successRate, errorRate);
      s := Sample(rps, totalRequests, activeConnections, ResponseTimeFor(rps), successRate, errorRate,
                  targetUrl, Monitor.Running, startTime, errors, responseCodes);
    }
  }
}
