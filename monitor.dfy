/** The metrics store behind the DOS monitor endpoints: an all-or-nothing
    validation gate, a last-write-wins snapshot under the cache key
    `dos_metrics` (300 s), a history capped at 100 entries under `dos_history`
    (3600 s), clearing, and the read endpoints, which are lookups with defaults.
    The clock is a parameter (seconds); the framework's `url` rule is the
    parameter `isUrl`. */
module Monitor {
  import opened Shared

  const MetricsTtl: int := 300
  const HistoryTtl: int := 3600
  const HistoryCap: nat := 100

  datatype Status = Running | Stopped | Paused
  {
    function Name(): string
    {
      match this
      case Running => "running"
      case Stopped => "stopped"
      case Paused => "paused"
    }
  }

  /** The `in:running,stopped,paused` rule. */
  function ParseStatus(s: string): (r: Option<Status>)
    ensures r.Some? ==> r.value.Name() == s
    ensures (exists st: Status :: st.Name() == s) ==> r.Some?
  {
    if s == "running" then Some(Running)
    else if s == "stopped" then Some(Stopped)
    else if s == "paused" then Some(Paused)
    else None
  }

  // ---------------------------------------------------------------------------
  // Validation (the rule list of storeMetrics)
  // ---------------------------------------------------------------------------

  /** Fields under `required|numeric|min:0`. */
  const CounterFields: set<string> :=
    {"requests_per_second", "total_requests", "active_connections", "average_response_time"}
  /** Fields under `required|numeric|min:0|max:100`. */
  const RateFields: set<string> := {"success_rate", "error_rate"}
  /** Fields under `nullable|array`. */
  const ListFields: set<string> := {"errors", "response_codes"}
  /** Every field the rule list names; nothing else reaches the validated data. */
  const RuleFields: set<string> :=
    CounterFields + RateFields + {"target_url", "status", "start_time"} + ListFields

  /** The characters PHP's `trim` removes, which decide whether `required`
      sees a string as empty. */
  const PhpTrimmed: set<char> := {' ', '\t', '\n', '\r', '\0', '\U{B}'}

  predicate PhpBlank(s: string)
  {
    forall i | 0 <= i < |s| :: s[i] in PhpTrimmed
  }

  /** `required|string|url` on a string value. */
  predicate ValidUrl(s: string, isUrl: string -> bool)
  {
    !PhpBlank(s) && isUrl(s)
  }

  /** What `nullable|array` lets through once the value is neither absent nor
      null: a decoded array or object, or a blank string, on which the
      validator runs only implicit rules such as `required`, so `array` is
      skipped. */
  predicate ListValue(j: Json)
  {
    j.JArr? || j.JObj? || (j.JStr? && PhpBlank(j.s))
  }

  /** Whether field `key` of the request passes its rules. */
  predicate FieldValid(p: Payload, isUrl: string -> bool, key: string)
  {
    var v := Lookup(p, key);
    if key in CounterFields then
      v.Some? && v.value.JNum? && v.value.n >= 0.0
    else if key in RateFields then
      v.Some? && v.value.JNum? && 0.0 <= v.value.n <= 100.0
    else if key == "target_url" then
      v.Some? && v.value.JStr? && ValidUrl(v.value.s, isUrl)
    else if key == "status" then
      v.Some? && v.value.JStr? && ParseStatus(v.value.s).Some?
    else if key == "start_time" then
      v.None? || v.value.JNull? || v.value.JStr?
    else
      v.None? || v.value.JNull? || ListValue(v.value)
  }

  /** The field-keyed error map of a 422 response, as the set of its keys. */
  function FieldErrors(p: Payload, isUrl: string -> bool): set<string>
  {
    set key | key in RuleFields && !FieldValid(p, isUrl, key)
  }

  /** Every rule of the list holds. */
  predicate AllValid(p: Payload, isUrl: string -> bool)
  {
    && FieldValid(p, isUrl, "requests_per_second")
    && FieldValid(p, isUrl, "total_requests")
    && FieldValid(p, isUrl, "active_connections")
    && FieldValid(p, isUrl, "average_response_time")
    && FieldValid(p, isUrl, "success_rate")
    && FieldValid(p, isUrl, "error_rate")
    && FieldValid(p, isUrl, "target_url")
    && FieldValid(p, isUrl, "status")
    && FieldValid(p, isUrl, "start_time")
    && FieldValid(p, isUrl, "errors")
    && FieldValid(p, isUrl, "response_codes")
  }

  /** The error report is empty exactly when every rule holds. */
  lemma NoErrorsIffAllValid(p: Payload, isUrl: string -> bool)
    ensures FieldErrors(p, isUrl) == {} <==> AllValid(p, isUrl)
  {
    if FieldErrors(p, isUrl) == {} {
      forall key | key in RuleFields
        ensures FieldValid(p, isUrl, key)
      {
        assert key !in FieldErrors(p, isUrl);
      }
    } else {
      var key :| key in FieldErrors(p, isUrl);
      assert key in RuleFields && !FieldValid(p, isUrl, key);
    }
  }

  /** How `start_time` reached the validated data: not sent, sent as null, or
      sent as a string. */
  datatype StartTime = Absent | Null | Given(text: string)

  /** The validated data, typed. `errors`/`responseCodes` are None when the
      field was absent or null (the two cases `??` does not tell apart). */
  datatype Fields = Fields(
    requestsPerSecond: real,
    totalRequests: real,
    activeConnections: real,
    averageResponseTime: real,
    successRate: real,
    errorRate: real,
    targetUrl: string,
    status: Status,
    startTime: StartTime,
    errors: Option<Json>,
    responseCodes: Option<Json>)

  /** What the rules guarantee of validated data. */
  predicate InRange(f: Fields, isUrl: string -> bool)
  {
    && f.requestsPerSecond >= 0.0 && f.totalRequests >= 0.0
    && f.activeConnections >= 0.0 && f.averageResponseTime >= 0.0
    && 0.0 <= f.successRate <= 100.0 && 0.0 <= f.errorRate <= 100.0
    && ValidUrl(f.targetUrl, isUrl)
    && (f.errors.Some? ==> ListValue(f.errors.value))
    && (f.responseCodes.Some? ==> ListValue(f.responseCodes.value))
  }

  datatype Validation = Passed(fields: Fields) | Failed(errors: set<string>)

  function NonNull(p: Payload, key: string): Option<Json>
  {
    if key in p && !p[key].JNull? then Some(p[key]) else None
  }

  /** `$request->validate([...])`: every rule is checked and a single failing
      field rejects the whole request. */
  function Validate(p: Payload, isUrl: string -> bool): (r: Validation)
    ensures r.Failed? <==> !AllValid(p, isUrl)
    ensures r.Failed? ==> r.errors == FieldErrors(p, isUrl)
    ensures r.Passed? ==> InRange(r.fields, isUrl)
    ensures r.Passed? ==> (r.fields.startTime.Absent? <==> "start_time" !in p)
  {
    if !AllValid(p, isUrl) then Failed(FieldErrors(p, isUrl))
    else
      Passed(Fields(
        p["requests_per_second"].n,
        p["total_requests"].n,
        p["active_connections"].n,
        p["average_response_time"].n,
        p["success_rate"].n,
        p["error_rate"].n,
        p["target_url"].s,
        ParseStatus(p["status"].s).value,
        if "start_time" !in p then Absent
        else if p["start_time"].JNull? then Null
        else Given(p["start_time"].s),
        NonNull(p, "errors"),
        NonNull(p, "response_codes")))
  }

  /** A request is refused exactly when the error report is non-empty, and the
      report names the failing fields. */
  lemma ValidateReportsErrors(p: Payload, isUrl: string -> bool)
    ensures Validate(p, isUrl).Failed? <==> FieldErrors(p, isUrl) != {}
    ensures forall key :: key in FieldErrors(p, isUrl) <==> key in RuleFields && !FieldValid(p, isUrl, key)
  {
    NoErrorsIffAllValid(p, isUrl);
  }

  /** How a start time is sent: left out, as null, or as a string. */
  function StartTimeJson(t: StartTime): Option<Json>
  {
    match t
    case Absent => None
    case Null => Some(JNull)
    case Given(text) => Some(JStr(text))
  }

  /** The eight fields every body built from Fields carries. */
  function BasePayload(f: Fields): Payload
  {
    map[
      "requests_per_second" := JNum(f.requestsPerSecond),
      "total_requests" := JNum(f.totalRequests),
      "active_connections" := JNum(f.activeConnections),
      "average_response_time" := JNum(f.averageResponseTime),
      "success_rate" := JNum(f.successRate),
      "error_rate" := JNum(f.errorRate),
      "target_url" := JStr(f.targetUrl),
      "status" := JStr(f.status.Name())]
  }

  /** The request body that carries exactly these fields. */
  function ToPayload(f: Fields): Payload
  {
    var base := BasePayload(f);
    var withStart :=
      match f.startTime
      case Absent => base
      case Null => base["start_time" := JNull]
      case Given(t) => base["start_time" := JStr(t)];
    var withErrors :=
      if f.errors.Some? then withStart["errors" := f.errors.value] else withStart;
    if f.responseCodes.Some? then withErrors["response_codes" := f.responseCodes.value]
    else withErrors
  }

  /** Every key but the three optional ones reads as in the base body. */
  lemma ToPayloadKeepsBase(f: Fields, key: string)
    requires key != "start_time" && key != "errors" && key != "response_codes"
    ensures Lookup(ToPayload(f), key) == Lookup(BasePayload(f), key)
  {
  }

  /** The four counters every well-formed body carries. */
  lemma ToPayloadCountersAt(f: Fields)
    ensures var p := ToPayload(f);
      && Lookup(p, "requests_per_second") == Some(JNum(f.requestsPerSecond))
      && Lookup(p, "total_requests") == Some(JNum(f.totalRequests))
      && Lookup(p, "active_connections") == Some(JNum(f.activeConnections))
      && Lookup(p, "average_response_time") == Some(JNum(f.averageResponseTime))
  {
    ToPayloadKeepsBase(f, "requests_per_second");
    ToPayloadKeepsBase(f, "total_requests");
    ToPayloadKeepsBase(f, "active_connections");
    ToPayloadKeepsBase(f, "average_response_time");
  }

  /** The rates, target and status every well-formed body carries. */
  lemma ToPayloadRatesAt(f: Fields)
    ensures var p := ToPayload(f);
      && Lookup(p, "success_rate") == Some(JNum(f.successRate))
      && Lookup(p, "error_rate") == Some(JNum(f.errorRate))
      && Lookup(p, "target_url") == Some(JStr(f.targetUrl))
      && Lookup(p, "status") == Some(JStr(f.status.Name()))
  {
    ToPayloadKeepsBase(f, "success_rate");
    ToPayloadKeepsBase(f, "error_rate");
    ToPayloadKeepsBase(f, "target_url");
    ToPayloadKeepsBase(f, "status");
  }

  /** The three fields a body carries only when they are sent. */
  lemma ToPayloadOptionalAt(f: Fields)
    ensures var p := ToPayload(f);
      && Lookup(p, "start_time") == StartTimeJson(f.startTime)
      && Lookup(p, "errors") == f.errors
      && Lookup(p, "response_codes") == f.responseCodes
  {
    var p := ToPayload(f);
    assert Lookup(p, "start_time") == StartTimeJson(f.startTime) by {
      match f.startTime
      case Absent =>
      case Null =>
      case Given(t) =>
    }
  }

  /** Where each field of a well-formed body sits. */
  lemma ToPayloadAt(f: Fields)
    ensures var p := ToPayload(f);
      && Lookup(p, "requests_per_second") == Some(JNum(f.requestsPerSecond))
      && Lookup(p, "total_requests") == Some(JNum(f.totalRequests))
      && Lookup(p, "active_connections") == Some(JNum(f.activeConnections))
      && Lookup(p, "average_response_time") == Some(JNum(f.averageResponseTime))
      && Lookup(p, "success_rate") == Some(JNum(f.successRate))
      && Lookup(p, "error_rate") == Some(JNum(f.errorRate))
      && Lookup(p, "target_url") == Some(JStr(f.targetUrl))
      && Lookup(p, "status") == Some(JStr(f.status.Name()))
      && Lookup(p, "start_time") == StartTimeJson(f.startTime)
      && Lookup(p, "errors") == f.errors
      && Lookup(p, "response_codes") == f.responseCodes
  {
    ToPayloadCountersAt(f);
    ToPayloadRatesAt(f);
    ToPayloadOptionalAt(f);
  }

  /** The body carries no field beyond those of the rule list. */
  lemma ToPayloadKeys(f: Fields)
    ensures ToPayload(f).Keys <= RuleFields
    ensures "start_time" in ToPayload(f) <==> !f.startTime.Absent?
  {
  }

  /** Validation reads back exactly the fields a well-formed body carries, so it
      accepts every body whose fields are in range. */
  lemma ToPayloadCountersValid(f: Fields, isUrl: string -> bool, key: string)
    requires InRange(f, isUrl) && key in {"requests_per_second", "total_requests", "active_connections", "average_response_time"}
    ensures FieldValid(ToPayload(f), isUrl, key)
  {
    var p := ToPayload(f);
    ToPayloadAt(f);
    assert FieldValid(p, isUrl, "requests_per_second");
    assert FieldValid(p, isUrl, "total_requests");
    assert FieldValid(p, isUrl, "active_connections");
    assert FieldValid(p, isUrl, "average_response_time");
  }

  lemma ToPayloadRatesValid(f: Fields, isUrl: string -> bool, key: string)
    requires InRange(f, isUrl) && key in {"success_rate", "error_rate"}
    ensures FieldValid(ToPayload(f), isUrl, key)
  {
    var p := ToPayload(f);
    ToPayloadAt(f);
    assert FieldValid(p, isUrl, "success_rate");
    assert FieldValid(p, isUrl, "error_rate");
  }

  lemma ToPayloadStringsValid(f: Fields, isUrl: string -> bool, key: string)
    requires InRange(f, isUrl) && key in {"target_url", "status", "start_time"}
    ensures FieldValid(ToPayload(f), isUrl, key)
  {
    var p := ToPayload(f);
    ToPayloadAt(f);
    assert ParseStatus(f.status.Name()).Some? by {
      match f.status
      case Running =>
      case Stopped =>
      case Paused =>
    }
    assert FieldValid(p, isUrl, "target_url");
    assert FieldValid(p, isUrl, "status");
    assert FieldValid(p, isUrl, "start_time");
  }

  lemma ToPayloadListsValid(f: Fields, isUrl: string -> bool, key: string)
    requires InRange(f, isUrl) && key in {"errors", "response_codes"}
    ensures FieldValid(ToPayload(f), isUrl, key)
  {
    var p := ToPayload(f);
    ToPayloadAt(f);
    assert FieldValid(p, isUrl, "errors");
    assert FieldValid(p, isUrl, "response_codes");
  }

  lemma ToPayloadFieldsValid(f: Fields, isUrl: string -> bool)
    requires InRange(f, isUrl)
    ensures forall key | key in RuleFields :: FieldValid(ToPayload(f), isUrl, key)
  {
    forall key | key in RuleFields
      ensures FieldValid(ToPayload(f), isUrl, key)
    {
      if key in CounterFields {
        ToPayloadCountersValid(f, isUrl, key);
      } else if key in RateFields {
        ToPayloadRatesValid(f, isUrl, key);
      } else if key in ListFields {
        ToPayloadListsValid(f, isUrl, key);
      } else {
        ToPayloadStringsValid(f, isUrl, key);
      }
    }
  }

  lemma ValidateToPayload(f: Fields, isUrl: string -> bool)
    requires InRange(f, isUrl)
    ensures Validate(ToPayload(f), isUrl) == Passed(f)
  {
    var p := ToPayload(f);
    ToPayloadFieldsValid(f, isUrl);
    assert AllValid(p, isUrl);
    ToPayloadAt(f);
    assert ParseStatus(f.status.Name()) == Some(f.status) by {
      match f.status
      case Running =>
      case Stopped =>
      case Paused =>
    }
    var r := Validate(p, isUrl);
    assert r.Passed?;
    assert r.fields.startTime == f.startTime;
    assert r.fields.errors == f.errors;
    assert r.fields.responseCodes == f.responseCodes;
  }

  // ---------------------------------------------------------------------------
  // What is stored
  // ---------------------------------------------------------------------------

  /** The `dos_metrics` value: the validated fields plus the receipt time. */
  datatype Snapshot = Snapshot(
    requestsPerSecond: real,
    totalRequests: real,
    activeConnections: real,
    averageResponseTime: real,
    successRate: real,
    errorRate: real,
    targetUrl: string,
    status: Status,
    startTime: Option<string>,
    timestamp: int,
    errors: Json,
    responseCodes: Json)

  /** One `dos_history` entry: the receipt time and the six numeric fields. */
  datatype HistoryEntry = HistoryEntry(
    timestamp: int,
    requestsPerSecond: real,
    totalRequests: real,
    activeConnections: real,
    averageResponseTime: real,
    successRate: real,
    errorRate: real)

  function SnapshotOf(f: Fields, now: int): Snapshot
    requires !f.startTime.Absent?
  {
    Snapshot(
      f.requestsPerSecond, f.totalRequests, f.activeConnections,
      f.averageResponseTime, f.successRate, f.errorRate,
      f.targetUrl, f.status,
      if f.startTime.Given? then Some(f.startTime.text) else None,
      now,
      if f.errors.Some? then f.errors.value else JArr([]),
      if f.responseCodes.Some? then f.responseCodes.value else JArr([]))
  }

  function EntryOf(f: Fields, now: int): HistoryEntry
  {
    HistoryEntry(
      now, f.requestsPerSecond, f.totalRequests, f.activeConnections,
      f.averageResponseTime, f.successRate, f.errorRate)
  }

  /** Append, then keep only the last 100 entries. */
  function AppendCapped(h: seq<HistoryEntry>, e: HistoryEntry): seq<HistoryEntry>
  {
    LastN(h + [e], HistoryCap)
  }

  // ---------------------------------------------------------------------------
  // The cache
  // ---------------------------------------------------------------------------

  /** A cached value and the instant from which it reads as absent. */
  datatype Slot<T> = Slot(value: T, expiresAt: int)

  datatype CacheState = CacheState(
    metrics: Option<Slot<Snapshot>>,
    history: Option<Slot<seq<HistoryEntry>>>)

  const EmptyCache: CacheState := CacheState(None, None)

  /** A slot read at time now: absent once its expiry instant is reached. */
  function Live<T>(slot: Option<Slot<T>>, now: int): (r: Option<T>)
    ensures r.Some? <==> slot.Some? && now < slot.value.expiresAt
    ensures r.Some? ==> r.value == slot.value.value
  {
    if slot.Some? && now < slot.value.expiresAt then Some(slot.value.value) else None
  }

  /** `Cache::get('dos_history', [])`. */
  function LiveHistory(c: CacheState, now: int): seq<HistoryEntry>
  {
    var h := Live(c.history, now);
    if h.Some? then h.value else []
  }

  /** The two cache keys the controller uses, each an optional value with an
      expiry instant. */
  class Cache {
    var metrics: Option<Slot<Snapshot>>
    var history: Option<Slot<seq<HistoryEntry>>>

    function State(): CacheState
      reads this
    {
      CacheState(metrics, history)
    }

    constructor ()
      ensures State() == EmptyCache
    {
      metrics, history := None, None;
    }

    /** `Cache::put('dos_metrics', v, ttl)`. */
    method PutMetrics(v: Snapshot, ttl: int, now: int)
      requires ttl > 0
      modifies this
      ensures metrics == Some(Slot(v, now + ttl)) && history == old(history)
    {
      metrics := Some(Slot(v, now + ttl));
    }

    /** `Cache::put('dos_history', h, ttl)`. */
    method PutHistory(h: seq<HistoryEntry>, ttl: int, now: int)
      requires ttl > 0
      modifies this
      ensures history == Some(Slot(h, now + ttl)) && metrics == old(metrics)
    {
      history := Some(Slot(h, now + ttl));
    }

    /** `Cache::get('dos_history', [])`. */
    method GetHistory(now: int) returns (h: seq<HistoryEntry>)
      ensures h == LiveHistory(State(), now)
    {
      if history.Some? && now < history.value.expiresAt {
        h := history.value.value;
      } else {
        h := [];
      }
    }

    /** `Cache::forget('dos_metrics')`. */
    method ForgetMetrics()
      modifies this
      ensures metrics == None && history == old(history)
    {
      metrics := None;
    }

    /** `Cache::forget('dos_history')`. */
    method ForgetHistory()
      modifies this
      ensures history == None && metrics == old(metrics)
    {
      history := None;
    }
  }

  // ---------------------------------------------------------------------------
  // storeMetrics and clearMetrics
  // ---------------------------------------------------------------------------

  /** The response of storeMetrics: success with the receipt time, a 422 with
      the failing fields, or the server error raised when the validated data has
      no `start_time` key (it is read without a default). */
  datatype StoreResult = Stored(timestamp: int) | Invalid(errors: set<string>) | UndefinedStartTime

  /** storeMetrics as a function of the cache before the request. */
  function StoreSpec(c: CacheState, p: Payload, isUrl: string -> bool, now: int): (r: (CacheState, StoreResult))
    ensures r.1.Stored? <==> AllValid(p, isUrl) && "start_time" in p
    ensures r.1.Invalid? <==> !AllValid(p, isUrl)
    ensures r.1.Invalid? ==> r.1.errors == FieldErrors(p, isUrl)
    ensures !r.1.Stored? ==> r.0 == c
    ensures r.1.Stored? ==> r.1.timestamp == now
  {
    match Validate(p, isUrl)
    case Failed(errors) => (c, Invalid(errors))
    case Passed(f) =>
      if f.startTime.Absent? then (c, UndefinedStartTime)
      else
        (CacheState(
           Some(Slot(SnapshotOf(f, now), now + MetricsTtl)),
           Some(Slot(AppendCapped(LiveHistory(c, now), EntryOf(f, now)), now + HistoryTtl))),
         Stored(now))
  }

  /** storeMetrics, step by step: validate, put the snapshot, read the history,
      append, trim to the last 100, put the history back. */
  method StoreMetrics(cache: Cache, p: Payload, isUrl: string -> bool, now: int) returns (r: StoreResult)
    modifies cache
    ensures (cache.State(), r) == StoreSpec(old(cache.State()), p, isUrl, now)
  {
    var validation := Validate(p, isUrl);
    if validation.Failed? {
      return Invalid(validation.errors);
    }
    var f := validation.fields;
    if f.startTime.Absent? {
      return UndefinedStartTime;
    }
    ghost var before := cache.State();
    cache.PutMetrics(SnapshotOf(f, now), MetricsTtl, now);
    var history := cache.GetHistory(now);
    assert history == LiveHistory(before, now);
    history := PushCapped(history, EntryOf(f, now), HistoryCap);
    cache.PutHistory(history, HistoryTtl, now);
    r := Stored(now);
    assert StoreSpec(before, p, isUrl, now) == (cache.State(), r);
  }

  /** clearMetrics: forget both keys. The state afterwards does not depend on the
      state before, so clearing twice is the same as clearing once. */
  method ClearMetrics(cache: Cache)
    modifies cache
    ensures cache.State() == EmptyCache
    ensures forall now :: GetMetrics(cache.State(), now) == MetricsView(None, [], now)
  {
    cache.ForgetMetrics();
    cache.ForgetHistory();
  }

  // ---------------------------------------------------------------------------
  // Reads: getMetrics, getHistory, status
  // ---------------------------------------------------------------------------

  /** The getMetrics response; `current` is None where the endpoint answers `[]`. */
  datatype MetricsView = MetricsView(current: Option<Snapshot>, history: seq<HistoryEntry>, timestamp: int)

  datatype HistoryView = HistoryView(history: seq<HistoryEntry>, timestamp: int)

  datatype StatusView = StatusView(status: Status, isRunning: bool, lastUpdate: Option<int>, targetUrl: Option<string>)

  function GetMetrics(c: CacheState, now: int): (r: MetricsView)
    ensures r.current.Some? <==> c.metrics.Some? && now < c.metrics.value.expiresAt
    ensures r.current.Some? ==> r.current.value == c.metrics.value.value
    ensures r.history == GetHistory(c, now).history && r.timestamp == now
  {
    MetricsView(Live(c.metrics, now), LiveHistory(c, now), now)
  }

  function GetHistory(c: CacheState, now: int): (r: HistoryView)
    ensures c.history.Some? && now < c.history.value.expiresAt ==> r.history == c.history.value.value
    ensures !(c.history.Some? && now < c.history.value.expiresAt) ==> r.history == []
    ensures r.timestamp == now
  {
    HistoryView(LiveHistory(c, now), now)
  }

  /** The status endpoint: everything defaults when no snapshot is live. */
  function StatusOf(c: CacheState, now: int): (r: StatusView)
    ensures r.isRunning <==> r.status == Running
    ensures Live(c.metrics, now).None? ==> r == StatusView(Stopped, false, None, None)
    ensures Live(c.metrics, now).Some? ==>
      var s := Live(c.metrics, now).value;
      r.status == s.status && r.lastUpdate == Some(s.timestamp) && r.targetUrl == Some(s.targetUrl)
  {
    match Live(c.metrics, now)
    case None => StatusView(Stopped, false, None, None)
    case Some(s) => StatusView(s.status, s.status.Name() == "running", Some(s.timestamp), Some(s.targetUrl))
  }

  // ---------------------------------------------------------------------------
  // Properties of storeMetrics
  // ---------------------------------------------------------------------------

  /** After an accepted store the history is the last min(n+1, 100) entries of
      the live history followed by the new entry, and the new entry is last. */
  lemma AcceptedStoreAppends(c: CacheState, p: Payload, isUrl: string -> bool, now: int)
    requires StoreSpec(c, p, isUrl, now).1.Stored?
    ensures
      var old_h := LiveHistory(c, now);
      var f := Validate(p, isUrl).fields;
      var h := LiveHistory(StoreSpec(c, p, isUrl, now).0, now);
      && |h| == Min(|old_h| + 1, HistoryCap)
      && h == (old_h + [EntryOf(f, now)])[|old_h| + 1 - |h|..]
      && h[|h| - 1] == EntryOf(f, now)
  {
    var old_h := LiveHistory(c, now);
    var f := Validate(p, isUrl).fields;
    var s := old_h + [EntryOf(f, now)];
    var h := LastN(s, HistoryCap);
    assert h == s[|s| - |h|..];
  }

  /** What a passing validation reads from the request, field by field. */
  lemma PassedFields(p: Payload, isUrl: string -> bool)
    requires AllValid(p, isUrl)
    ensures Validate(p, isUrl).Passed?
    ensures var f := Validate(p, isUrl).fields;
      && Lookup(p, "requests_per_second") == Some(JNum(f.requestsPerSecond))
      && Lookup(p, "total_requests") == Some(JNum(f.totalRequests))
      && Lookup(p, "active_connections") == Some(JNum(f.activeConnections))
      && Lookup(p, "average_response_time") == Some(JNum(f.averageResponseTime))
      && Lookup(p, "success_rate") == Some(JNum(f.successRate))
      && Lookup(p, "error_rate") == Some(JNum(f.errorRate))
      && Lookup(p, "target_url") == Some(JStr(f.targetUrl))
      && Lookup(p, "status") == Some(JStr(f.status.Name()))
      && (f.startTime.Null? ==> Lookup(p, "start_time") == Some(JNull))
      && (f.startTime.Given? ==> Lookup(p, "start_time") == Some(JStr(f.startTime.text)))
      && f.errors == NonNull(p, "errors") && f.responseCodes == NonNull(p, "response_codes")
  {
  }

  /** The cache an accepted store leaves behind. */
  lemma StoredState(c: CacheState, p: Payload, isUrl: string -> bool, now: int)
    requires StoreSpec(c, p, isUrl, now).1.Stored?
    ensures Validate(p, isUrl).Passed? && !Validate(p, isUrl).fields.startTime.Absent?
    ensures var f := Validate(p, isUrl).fields;
      StoreSpec(c, p, isUrl, now).0 ==
        CacheState(Some(Slot(SnapshotOf(f, now), now + MetricsTtl)),
                   Some(Slot(AppendCapped(LiveHistory(c, now), EntryOf(f, now)), now + HistoryTtl)))
  {
  }

  /** The appended entry is the newest one kept. */
  lemma AppendCappedLast(h: seq<HistoryEntry>, e: HistoryEntry)
    ensures var h' := AppendCapped(h, e);
      |h'| >= 1 && h'[|h'| - 1] == e
  {
    var s := h + [e];
    assert s[|s| - 1] == e;
  }

  /** The snapshot built from a passed request carries that request's values. */
  lemma SnapshotOfPayload(p: Payload, isUrl: string -> bool, now: int)
    requires AllValid(p, isUrl) && "start_time" in p
    ensures Validate(p, isUrl).Passed? && !Validate(p, isUrl).fields.startTime.Absent?
    ensures var s := SnapshotOf(Validate(p, isUrl).fields, now);
      && Lookup(p, "requests_per_second") == Some(JNum(s.requestsPerSecond))
      && Lookup(p, "total_requests") == Some(JNum(s.totalRequests))
      && Lookup(p, "active_connections") == Some(JNum(s.activeConnections))
      && Lookup(p, "average_response_time") == Some(JNum(s.averageResponseTime))
      && Lookup(p, "success_rate") == Some(JNum(s.successRate))
      && Lookup(p, "error_rate") == Some(JNum(s.errorRate))
      && Lookup(p, "target_url") == Some(JStr(s.targetUrl))
      && Lookup(p, "status") == Some(JStr(s.status.Name()))
      && Lookup(p, "start_time") == Some(if s.startTime.Some? then JStr(s.startTime.value) else JNull)
      && s.timestamp == now
      && s.errors == (if NonNull(p, "errors").Some? then p["errors"] else JArr([]))
      && s.responseCodes == (if NonNull(p, "response_codes").Some? then p["response_codes"] else JArr([]))
  {
    PassedFields(p, isUrl);
  }

  /** The snapshot holds the request's validated values and the receipt time;
      absent or null `errors`/`response_codes` become empty lists. A history
      entry copies only the receipt time and the six numeric fields. */
  lemma AcceptedStoreSnapshot(c: CacheState, p: Payload, isUrl: string -> bool, now: int)
    requires StoreSpec(c, p, isUrl, now).1.Stored?
    ensures
      var c' := StoreSpec(c, p, isUrl, now).0;
      && c'.metrics.Some? && c'.metrics.value.expiresAt == now + MetricsTtl
      && c'.history.Some? && c'.history.value.expiresAt == now + HistoryTtl
      && var s := c'.metrics.value.value;
      && Lookup(p, "requests_per_second") == Some(JNum(s.requestsPerSecond))
      && Lookup(p, "total_requests") == Some(JNum(s.totalRequests))
      && Lookup(p, "active_connections") == Some(JNum(s.activeConnections))
      && Lookup(p, "average_response_time") == Some(JNum(s.averageResponseTime))
      && Lookup(p, "success_rate") == Some(JNum(s.successRate))
      && Lookup(p, "error_rate") == Some(JNum(s.errorRate))
      && Lookup(p, "target_url") == Some(JStr(s.targetUrl))
      && Lookup(p, "status") == Some(JStr(s.status.Name()))
      && Lookup(p, "start_time") == Some(if s.startTime.Some? then JStr(s.startTime.value) else JNull)
      && s.timestamp == now
      && s.errors == (if NonNull(p, "errors").Some? then p["errors"] else JArr([]))
      && s.responseCodes == (if NonNull(p, "response_codes").Some? then p["response_codes"] else JArr([]))
      && var e := c'.history.value.value[|c'.history.value.value| - 1];
      && e == HistoryEntry(now, s.requestsPerSecond, s.totalRequests, s.activeConnections,
                           s.averageResponseTime, s.successRate, s.errorRate)
  {
    StoredState(c, p, isUrl, now);
    var f := Validate(p, isUrl).fields;
    SnapshotOfPayload(p, isUrl, now);
    AppendCappedLast(LiveHistory(c, now), EntryOf(f, now));
  }

  /** History length never exceeds 100 after any store, accepted or not, when it
      did not before. */
  lemma StoreKeepsHistoryBounded(c: CacheState, p: Payload, isUrl: string -> bool, now: int)
    requires c.history.Some? ==> |c.history.value.value| <= HistoryCap
    ensures var c' := StoreSpec(c, p, isUrl, now).0;
      c'.history.Some? ==> |c'.history.value.value| <= HistoryCap
  {
  }

  /** Reading a cache that holds a snapshot until t + 300 and a non-empty
      history until t + 3600, at some time from t on. */
  lemma ReadStoredShape(snap: Snapshot, h: seq<HistoryEntry>, t: int, later: int)
    requires |h| >= 1 && t <= later
    ensures var c := CacheState(Some(Slot(snap, t + MetricsTtl)), Some(Slot(h, t + HistoryTtl)));
      && (GetMetrics(c, later).current.Some? <==> later < t + MetricsTtl)
      && (GetMetrics(c, later).current.Some? ==> GetMetrics(c, later).current.value == snap)
      && (|GetMetrics(c, later).history| > 0 <==> later < t + HistoryTtl)
      && (StatusOf(c, later).isRunning <==> later < t + MetricsTtl && snap.status == Running)
  {
  }

  /** Reads after an accepted store: the snapshot is seen for 300 s and the
      history for 3600 s; from then on each reads as empty. */
  lemma ReadAfterStore(c: CacheState, p: Payload, isUrl: string -> bool, now: int, later: int)
    requires StoreSpec(c, p, isUrl, now).1.Stored?
    requires now <= later
    ensures
      var v := GetMetrics(StoreSpec(c, p, isUrl, now).0, later);
      && (v.current.Some? <==> later < now + MetricsTtl)
      && (v.current.Some? ==> v.current.value.timestamp == now)
      && (|v.history| > 0 <==> later < now + HistoryTtl)
      && (StatusOf(StoreSpec(c, p, isUrl, now).0, later).isRunning <==>
            later < now + MetricsTtl && Lookup(p, "status") == Some(JStr("running")))
  {
    StoredState(c, p, isUrl, now);
    var f := Validate(p, isUrl).fields;
    PassedFields(p, isUrl);
    var snap := SnapshotOf(f, now);
    var h := AppendCapped(LiveHistory(c, now), EntryOf(f, now));
    AppendCappedLast(LiveHistory(c, now), EntryOf(f, now));
    ReadStoredShape(snap, h, now, later);
    assert snap.status == Running <==> Lookup(p, "status") == Some(JStr("running")) by {
      assert Lookup(p, "status") == Some(JStr(f.status.Name()));
      assert f.status == Running <==> f.status.Name() == "running";
    }
  }

  /** The payload test_api.py posts. */
  function SmokeTestPayload(): Payload
  {
    map[
      "requests_per_second" := JNum(1000.0),
      "total_requests" := JNum(5000.0),
      "active_connections" := JNum(250.0),
      "average_response_time" := JNum(75.5),
      "success_rate" := JNum(95.0),
      "error_rate" := JNum(5.0),
      "target_url" := JStr("http://test-server.com"),
      "status" := JStr("running"),
      "start_time" := JStr("2024-01-15T10:00:00Z"),
      "errors" := JArr([JObj(map["type" := JStr("connection_timeout"), "count" := JNum(10.0)])]),
      "response_codes" := JArr([JObj(map["code" := JStr("200"), "count" := JNum(950.0), "percentage" := JNum(95.0)])])]
  }

  lemma SmokeTestPayloadAccepted(c: CacheState, isUrl: string -> bool, now: int)
    requires isUrl("http://test-server.com")
    ensures StoreSpec(c, SmokeTestPayload(), isUrl, now).1 == Stored(now)
  {
    var f := Fields(1000.0, 5000.0, 250.0, 75.5, 95.0, 5.0, "http://test-server.com", Running,
                    Given("2024-01-15T10:00:00Z"),
                    Some(SmokeTestPayload()["errors"]), Some(SmokeTestPayload()["response_codes"]));
    assert !PhpBlank("http://test-server.com") by {
      assert "http://test-server.com"[0] == 'h';
    }
    ValidateToPayload(f, isUrl);
    assert ToPayload(f) == SmokeTestPayload();
  }

  /** A blank string under `errors` passes `nullable|array`, because the
      validator skips non-implicit rules on blank strings, and it is stored as
      sent, since `??` replaces only null. */
  lemma BlankErrorsAccepted(c: CacheState, isUrl: string -> bool, now: int, blank: string)
    requires isUrl("http://test-server.com") && PhpBlank(blank)
    ensures var p := SmokeTestPayload()["errors" := JStr(blank)];
      && StoreSpec(c, p, isUrl, now).1 == Stored(now)
      && GetMetrics(StoreSpec(c, p, isUrl, now).0, now).current.value.errors == JStr(blank)
  {
    var p := SmokeTestPayload()["errors" := JStr(blank)];
    var f := Fields(1000.0, 5000.0, 250.0, 75.5, 95.0, 5.0, "http://test-server.com", Running,
                    Given("2024-01-15T10:00:00Z"),
                    Some(JStr(blank)), Some(SmokeTestPayload()["response_codes"]));
    assert !PhpBlank("http://test-server.com") by {
      assert "http://test-server.com"[0] == 'h';
    }
    ValidateToPayload(f, isUrl);
    assert ToPayload(f) == p;
    StoredState(c, p, isUrl, now);
  }
}
