/** The metrics client a load tool embeds: running counters, a 100-entry window
    of response times, the averages derived from them, and the JSON body it
    posts. The post itself is not modelled; `now` stands for `time.time()`. */
module MetricsClient {
  import opened Shared
  import Monitor

  const MetricsPath: string := "/api/dos-metrics"
  const ResponseWindow: nat := 100

  function Sum(s: seq<real>): real
  {
    if s == [] then 0.0 else Sum(s[..|s| - 1]) + s[|s| - 1]
  }

  /** `sum(s) / len(s) if s else 0`. */
  function Mean(s: seq<real>): real
  {
    if |s| == 0 then 0.0 else Sum(s) / |s| as real
  }

  lemma {:induction false} SumBounds(s: seq<real>, lo: real, hi: real)
    requires forall i :: 0 <= i < |s| ==> lo <= s[i] <= hi
    ensures |s| as real * lo <= Sum(s) <= |s| as real * hi
  {
    if s != [] {
      SumBounds(s[..|s| - 1], lo, hi);
    }
  }

  /** The reported average response time lies between the smallest and the
      largest time in the window. */
  lemma MeanWithin(s: seq<real>, lo: real, hi: real)
    requires |s| > 0
    requires forall i :: 0 <= i < |s| ==> lo <= s[i] <= hi
    ensures lo <= Mean(s) <= hi
  {
    SumBounds(s, lo, hi);
    var n := |s| as real;
    assert Sum(s) / n >= lo by {
      assert Sum(s) >= n * lo;
    }
    assert Sum(s) / n <= hi by {
      assert Sum(s) <= n * hi;
    }
  }

  /** `(total - errors) / total * 100 if total > 0 else 100`. */
  function SuccessRate(total: int, errors: int): (r: real)
    ensures 0 <= errors <= total ==> 0.0 <= r <= 100.0
    ensures total > 0 ==> (r == 100.0 <==> errors == 0)
    ensures total > 0 ==> (r == 0.0 <==> errors == total)
  {
    if total > 0 then
      var ok := (total - errors) as real / total as real;
      assert ok * total as real == (total - errors) as real;
      assert 0 <= errors <= total ==> 0.0 <= ok <= 1.0 by {
        if 0 <= errors <= total {
          assert (total - errors) as real <= total as real;
        }
      }
      assert ok == 1.0 <==> errors == 0;
      assert ok == 0.0 <==> errors == total;
      ok * 100.0
    else 100.0
  }

  /** Python's `x or d` for an optional number: None and zero are falsy. */
  function OrReal(x: Option<real>, d: real): real
  {
    if x.None? || x.value == 0.0 then d else x.value
  }

  function OrInt(x: Option<int>, d: int): int
  {
    if x.None? || x.value == 0 then d else x.value
  }

  /** The body send_metrics posts, from the client's fields and its own
      (optional) arguments. */
  function SendPayload(
    targetUrl: string, totalRequests: int, errorCount: int, bytesSent: int, bytesReceived: int,
    requestsPerSecond: real, activeConnections: int,
    responseTimeAvg: Option<real>, successRate: Option<real>, errorCountArg: Option<int>,
    bytesSentArg: Option<int>, bytesReceivedArg: Option<int>, now: int): Payload
  {
    map[
      "requests_per_second" := JNum(requestsPerSecond),
      "total_requests" := JNum(totalRequests as real),
      "active_connections" := JNum(activeConnections as real),
      "target_url" := JStr(targetUrl),
      "timestamp" := JNum(now as real),
      "response_time_avg" := JNum(OrReal(responseTimeAvg, 0.0)),
      "success_rate" := JNum(OrReal(successRate, 100.0)),
      "error_count" := JNum(OrInt(errorCountArg, errorCount) as real),
      "bytes_sent" := JNum(OrInt(bytesSentArg, bytesSent) as real),
      "bytes_received" := JNum(OrInt(bytesReceivedArg, bytesReceived) as real)]
  }

  /** The `or` defaults: a success rate of 0 is posted as 100, a missing or zero
      average as 0, and a zero counter argument falls back to the client's own. */
  lemma SendPayloadDefaults(
    targetUrl: string, totalRequests: int, errorCount: int, bytesSent: int, bytesReceived: int,
    requestsPerSecond: real, activeConnections: int,
    responseTimeAvg: Option<real>, successRate: Option<real>, errorCountArg: Option<int>,
    bytesSentArg: Option<int>, bytesReceivedArg: Option<int>, now: int)
    ensures var p := SendPayload(targetUrl, totalRequests, errorCount, bytesSent, bytesReceived,
                                 requestsPerSecond, activeConnections, responseTimeAvg, successRate,
                                 errorCountArg, bytesSentArg, bytesReceivedArg, now);
      && (successRate == Some(0.0) || successRate.None? ==> p["success_rate"] == JNum(100.0))
      && (successRate.Some? && successRate.value != 0.0 ==> p["success_rate"] == JNum(successRate.value))
      && (responseTimeAvg == Some(0.0) || responseTimeAvg.None? ==> p["response_time_avg"] == JNum(0.0))
      && (errorCountArg == Some(0) ==> p["error_count"] == JNum(errorCount as real))
      && p["total_requests"] == JNum(totalRequests as real)
      && p["target_url"] == JStr(targetUrl)
  {
  }

  /** The client's body lacks `average_response_time`, `error_rate` and
      `status`, all required by storeMetrics: it is always refused with a 422
      naming at least those three, and nothing is written. */
  lemma SendPayloadRejected(
    targetUrl: string, totalRequests: int, errorCount: int, bytesSent: int, bytesReceived: int,
    requestsPerSecond: real, activeConnections: int,
    responseTimeAvg: Option<real>, successRate: Option<real>, errorCountArg: Option<int>,
    bytesSentArg: Option<int>, bytesReceivedArg: Option<int>, now: int,
    c: Monitor.CacheState, isUrl: string -> bool, receivedAt: int)
    ensures var p := SendPayload(targetUrl, totalRequests, errorCount, bytesSent, bytesReceived,
                                 requestsPerSecond, activeConnections, responseTimeAvg, successRate,
                                 errorCountArg, bytesSentArg, bytesReceivedArg, now);
      && {"average_response_time", "error_rate", "status"} <= Monitor.FieldErrors(p, isUrl)
      && Monitor.StoreSpec(c, p, isUrl, receivedAt).1.Invalid?
      && Monitor.StoreSpec(c, p, isUrl, receivedAt).0 == c
  {
    var p := SendPayload(targetUrl, totalRequests, errorCount, bytesSent, bytesReceived,
                         requestsPerSecond, activeConnections, responseTimeAvg, successRate,
                         errorCountArg, bytesSentArg, bytesReceivedArg, now);
    assert "average_response_time" !in p;
    assert "error_rate" !in p;
    assert "status" !in p;
    assert !Monitor.FieldValid(p, isUrl, "average_response_time");
    assert !Monitor.FieldValid(p, isUrl, "error_rate");
    assert !Monitor.FieldValid(p, isUrl, "status");
    assert "status" in Monitor.FieldErrors(p, isUrl);
  }

  class DosMetricsClient {
    const dashboardUrl: string
    const targetUrl: string
    const metricsEndpoint: string
    var totalRequests: int
    var errorCount: int
    var bytesSent: int
    var bytesReceived: int
    var responseTimes: seq<real>
    /** Every response time ever appended, oldest first. */
    ghost var appendedTimes: seq<real>

    ghost predicate Valid()
      reads this
    {
      && 0 <= errorCount <= totalRequests
      && responseTimes == LastN(appendedTimes, ResponseWindow)
    }

    constructor (dashboardUrl: string, targetUrl: string)
      ensures Valid()
      ensures this.dashboardUrl == RStrip(dashboardUrl, '/') && this.targetUrl == targetUrl
      ensures metricsEndpoint == this.dashboardUrl + MetricsPath
      ensures totalRequests == 0 && errorCount == 0 && bytesSent == 0 && bytesReceived == 0
      ensures responseTimes == [] && appendedTimes == []
    {
      var base := RStrip(dashboardUrl, '/');
      this.dashboardUrl, this.targetUrl, metricsEndpoint := base, targetUrl, base + MetricsPath;
      totalRequests, errorCount, bytesSent, bytesReceived := 0, 0, 0, 0;
      responseTimes, appendedTimes := [], [];
      new;
      LastNShort(appendedTimes, ResponseWindow);
    }

    /** The counters update_metrics bumps for one request. */
    method CountRequest(success: bool, sent: int, received: int)
      requires Valid()
      modifies this`totalRequests, this`errorCount, this`bytesSent, this`bytesReceived
      ensures Valid()
      ensures totalRequests == old(totalRequests) + 1
      ensures bytesSent == old(bytesSent) + sent && bytesReceived == old(bytesReceived) + received
      ensures errorCount == old(errorCount) + (if success then 0 else 1)
    {
      totalRequests := totalRequests + 1;
      bytesSent := bytesSent + sent;
      bytesReceived := bytesReceived + received;
      if !success {
        errorCount := errorCount + 1;
      }
    }

    /** The response-time window update of update_metrics. */
    method RecordTime(responseTime: Option<real>)
      requires Valid()
      modifies this`responseTimes, this`appendedTimes
      ensures Valid()
      ensures responseTime.Some? ==>
        appendedTimes == old(appendedTimes) + [responseTime.value]
        && responseTimes == LastN(old(responseTimes) + [responseTime.value], ResponseWindow)
      ensures responseTime.None? ==> appendedTimes == old(appendedTimes) && responseTimes == old(responseTimes)
    {
      if responseTime.Some? {
        var window := PushCapped(responseTimes, responseTime.value, ResponseWindow);
        LastNAppend(appendedTimes, responseTime.value, ResponseWindow);
        appendedTimes := appendedTimes + [responseTime.value];
        responseTimes := window;
      }
    }

    /** update_metrics: count the request, its bytes and its failure, keep the
        response time in the window, and build the body send_metrics posts. */
    method UpdateMetrics(
      requestsPerSecond: real, activeConnections: int, responseTime: Option<real>,
      success: bool, sent: int, received: int, now: int) returns (payload: Payload)
      requires Valid()
      modifies this
      ensures Valid()
      ensures totalRequests == old(totalRequests) + 1
      ensures bytesSent == old(bytesSent) + sent && bytesReceived == old(bytesReceived) + received
      ensures errorCount == old(errorCount) + (if success then 0 else 1)
      ensures responseTime.Some? ==>
        appendedTimes == old(appendedTimes) + [responseTime.value]
        && responseTimes == LastN(old(responseTimes) + [responseTime.value], ResponseWindow)
      ensures responseTime.None? ==> appendedTimes == old(appendedTimes) && responseTimes == old(responseTimes)
      ensures |responseTimes| <= ResponseWindow
      ensures payload == SendPayload(
        targetUrl, totalRequests, errorCount, bytesSent, bytesReceived,
        requestsPerSecond, activeConnections,
        Some(Mean(responseTimes)), Some(SuccessRate(totalRequests, errorCount)),
        Some(errorCount), Some(bytesSent), Some(bytesReceived), now)
      ensures 0.0 <= SuccessRate(totalRequests, errorCount) <= 100.0
    {
      CountRequest(success, sent, received);
      RecordTime(responseTime);
      var responseTimeAvg := Mean(responseTimes);
      var successRate := SuccessRate(totalRequests, errorCount);
      payload := SendPayload(
        targetUrl, totalRequests, errorCount, bytesSent, bytesReceived,
        requestsPerSecond, activeConnections,
        Some(responseTimeAvg), Some(successRate), Some(errorCount), Some(bytesSent), Some(bytesReceived), now);
    }
  }
}
