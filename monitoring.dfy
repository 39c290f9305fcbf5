/** The metrics registry, the system-metrics collector and the health-check
    runner of the monitoring package (`VisionVend/monitoring/__init__.py`).

    The registry memoises metrics under `<prefix>_<name>`: asking for a
    metric that exists returns the stored one, whatever kind was asked for.
    The Prometheus objects themselves are reduced to the arguments they were
    created with.  The collector gates collection by an interval; the health
    runner selects checks by `includes`/`excludes` and reports the worst
    status.  Clock readings and the interval are parameters, in integer
    microseconds; what a health check's function does on a run (its result,
    an exception or a timeout) is an input of the run. */
module Monitoring {
  import opened Text

  // ---------------------------------------------------------------------
  // Metrics registry

  datatype MetricKind = CounterMetric | GaugeMetric | HistogramMetric | SummaryMetric

  /** A Prometheus metric, by the arguments it was created with. */
  datatype Metric = Metric(kind: MetricKind, fullName: string, description: string, labels: seq<string>)

  /** One get-or-create call: `registry.counter(name, description, labels)` and its siblings. */
  datatype MetricCall = MetricCall(kind: MetricKind, name: string, description: string, labels: seq<string>)

  /** The dictionary key of a metric: `f"{prefix}_{name}"`. */
  function FullName(prefix: string, name: string): string {
    prefix + "_" + name
  }

  lemma FullNameInjective(prefix: string, a: string, b: string)
    requires FullName(prefix, a) == FullName(prefix, b)
    ensures a == b
  {
    assert a == FullName(prefix, a)[|prefix| + 1..];
    assert b == FullName(prefix, b)[|prefix| + 1..];
  }

  /** `counter`, `gauge`, `histogram` and `summary`: the registry afterwards
      and the metric returned.  A metric is created only under a key not yet
      present, and nothing already stored is replaced. */
  function Obtain(metrics: map<string, Metric>, prefix: string, c: MetricCall): (r: (map<string, Metric>, Metric))
    ensures r.0.Keys == metrics.Keys + {FullName(prefix, c.name)}
    ensures forall k :: k in metrics ==> r.0[k] == metrics[k]
    ensures r.0[FullName(prefix, c.name)] == r.1
    ensures FullName(prefix, c.name) !in metrics ==> r.1 == Metric(c.kind, FullName(prefix, c.name), c.description, c.labels)
  {
    var full := FullName(prefix, c.name);
    if full !in metrics then
      var m := Metric(c.kind, full, c.description, c.labels);
      (metrics[full := m], m)
    else
      (metrics, metrics[full])
  }

  /** A second call with the same name, of any kind and with any description
      and labels, returns the metric the first call returned and leaves the
      registry as it was. */
  lemma ObtainMemoises(metrics: map<string, Metric>, prefix: string, c: MetricCall, d: MetricCall)
    requires d.name == c.name
    ensures Obtain(Obtain(metrics, prefix, c).0, prefix, d) == Obtain(metrics, prefix, c)
  {
  }

  /** `get_metric(name)`: the exact key first, then the prefixed key, else `KeyError`. */
  function Lookup(metrics: map<string, Metric>, prefix: string, name: string): (r: Result<Metric, PyError>)
    ensures name in metrics ==> r == Success(metrics[name])
    ensures name !in metrics && FullName(prefix, name) in metrics ==> r == Success(metrics[FullName(prefix, name)])
    ensures r.Failure? <==> name !in metrics && FullName(prefix, name) !in metrics
    ensures r.Failure? ==> r.error == KeyError
  {
    if name in metrics then Success(metrics[name])
    else if FullName(prefix, name) in metrics then Success(metrics[FullName(prefix, name)])
    else Failure(KeyError)
  }

  /** What get-or-create returned is found again, by its full name and, unless
      another metric is keyed by the bare name, by the name it was asked for. */
  lemma ObtainThenLookup(metrics: map<string, Metric>, prefix: string, c: MetricCall)
    ensures var (after, m) := Obtain(metrics, prefix, c);
      && Lookup(after, prefix, FullName(prefix, c.name)) == Success(m)
      && (c.name !in after ==> Lookup(after, prefix, c.name) == Success(m))
  {
  }

  /** The registry after a sequence of get-or-create calls. */
  function Replay(metrics: map<string, Metric>, prefix: string, calls: seq<MetricCall>): map<string, Metric>
    decreases |calls|
  {
    if calls == [] then metrics
    else Obtain(Replay(metrics, prefix, calls[..|calls| - 1]), prefix, calls[|calls| - 1]).0
  }

  predicate DistinctCallNames(calls: seq<MetricCall>) {
    forall i, j :: 0 <= i < j < |calls| ==> calls[i].name != calls[j].name
  }

  /** Get-or-create calls keep every metric already there. */
  lemma {:induction false} ReplayKeeps(metrics: map<string, Metric>, prefix: string, calls: seq<MetricCall>)
    ensures forall k :: k in metrics ==> k in Replay(metrics, prefix, calls) && Replay(metrics, prefix, calls)[k] == metrics[k]
    decreases |calls|
  {
    if calls != [] {
      ReplayKeeps(metrics, prefix, calls[..|calls| - 1]);
    }
  }

  /** Get-or-create calls add exactly the keys of the names asked for. */
  lemma {:induction false} ReplayKeys(metrics: map<string, Metric>, prefix: string, calls: seq<MetricCall>)
    ensures forall i :: 0 <= i < |calls| ==> FullName(prefix, calls[i].name) in Replay(metrics, prefix, calls)
    ensures forall k :: k in Replay(metrics, prefix, calls) ==>
      k in metrics || exists i :: 0 <= i < |calls| && k == FullName(prefix, calls[i].name)
    decreases |calls|
  {
    if calls != [] {
      var front := calls[..|calls| - 1];
      ReplayKeys(metrics, prefix, front);
      forall k | k in Replay(metrics, prefix, calls) && k !in metrics && k != FullName(prefix, calls[|calls| - 1].name)
        ensures exists i :: 0 <= i < |calls| && k == FullName(prefix, calls[i].name)
      {
        var i :| 0 <= i < |front| && k == FullName(prefix, front[i].name);
        assert calls[i] == front[i];
      }
      forall i | 0 <= i < |front|
        ensures FullName(prefix, calls[i].name) in Replay(metrics, prefix, calls)
      {
        assert calls[i] == front[i];
      }
    }
  }

  /** Calls with distinct names on a registry holding none of them create one
      metric each, as asked. */
  lemma {:induction false} ReplayCreates(metrics: map<string, Metric>, prefix: string, calls: seq<MetricCall>)
    requires DistinctCallNames(calls)
    requires forall i :: 0 <= i < |calls| ==> FullName(prefix, calls[i].name) !in metrics
    ensures forall i :: 0 <= i < |calls| ==>
      var c := calls[i];
      FullName(prefix, c.name) in Replay(metrics, prefix, calls) &&
      Replay(metrics, prefix, calls)[FullName(prefix, c.name)] == Metric(c.kind, FullName(prefix, c.name), c.description, c.labels)
    decreases |calls|
  {
    if calls != [] {
      var front := calls[..|calls| - 1];
      var last := calls[|calls| - 1];
      ReplayCreates(metrics, prefix, front);
      ReplayKeys(metrics, prefix, front);
      var before := Replay(metrics, prefix, front);
      forall i | 0 <= i < |front|
        ensures FullName(prefix, front[i].name) != FullName(prefix, last.name)
      {
        assert front[i] == calls[i];
        if FullName(prefix, front[i].name) == FullName(prefix, last.name) {
          FullNameInjective(prefix, front[i].name, last.name);
        }
      }
      var after := Obtain(before, prefix, last).0;
      assert Replay(metrics, prefix, calls) == after;
      forall i | 0 <= i < |calls|
        ensures var c := calls[i];
          FullName(prefix, c.name) in after &&
          after[FullName(prefix, c.name)] == Metric(c.kind, FullName(prefix, c.name), c.description, c.labels)
      {
        if i < |front| {
          assert calls[i] == front[i];
          assert FullName(prefix, front[i].name) in before;
        }
      }
    }
  }

  function Gauge(name: string, description: string): MetricCall {
    MetricCall(GaugeMetric, name, description, [])
  }

  function Counter(name: string, description: string, labels: seq<string>): MetricCall {
    MetricCall(CounterMetric, name, description, labels)
  }

  /** `_setup_default_metrics`, call by call; the system gauges only when
      `psutil` is importable. */
  function Defaults(psutilPresent: bool): seq<MetricCall> {
    (if psutilPresent then
       [Gauge("system_cpu_usage", "CPU usage percentage"),
        Gauge("system_memory_usage", "Memory usage percentage"),
        Gauge("system_disk_usage", "Disk usage percentage")]
     else []) +
    [Counter("http_requests_total", "Total HTTP requests", ["method", "endpoint", "status"]),
     MetricCall(HistogramMetric, "http_request_duration_seconds", "HTTP request duration in seconds", ["method", "endpoint"]),
     Counter("errors_total", "Total errors", ["type", "component"]),
     Counter("transactions_total", "Total transactions", []),
     Counter("transaction_items_total", "Total items sold", []),
     Gauge("transaction_value", "Transaction value in dollars"),
     Counter("unlock_requests_total", "Total unlock requests", []),
     Counter("payment_requests_total", "Total payment requests", []),
     Counter("mqtt_messages_published_total", "Total MQTT messages published", ["topic"]),
     Counter("mqtt_messages_received_total", "Total MQTT messages received", ["topic"]),
     Counter("mqtt_errors_total", "Total MQTT errors", ["type"]),
     Gauge("mqtt_connected", "MQTT connection status (1=connected, 0=disconnected)"),
     Gauge("door_state", "Door state (1=open, 0=closed)"),
     Gauge("temperature", "Temperature in Celsius"),
     Gauge("humidity", "Humidity percentage")]
  }

  /** A new registry holds exactly the keys of the default metrics. */
  lemma DefaultRegistry(prefix: string, psutilPresent: bool, k: string)
    ensures var d := Defaults(psutilPresent);
      k in Replay(map[], prefix, d) <==> exists i :: 0 <= i < |d| && k == FullName(prefix, d[i].name)
  {
    ReplayKeys(map[], prefix, Defaults(psutilPresent));
  }

  class MetricsRegistry {
    const prefix: string
    var metrics: map<string, Metric>

    /** `MetricsRegistry(prefix=prefix)`, which sets up the default metrics. */
    constructor (prefix: string, psutilPresent: bool)
      ensures this.prefix == prefix && metrics == Replay(map[], prefix, Defaults(psutilPresent))
    {
      this.prefix := prefix;
      metrics := map[];
      new;
      SetUp(Defaults(psutilPresent));
    }

    /** `_setup_default_metrics`: the get-or-create calls, in order. */
    method SetUp(calls: seq<MetricCall>)
      modifies this
      ensures metrics == Replay(old(metrics), prefix, calls)
    {
      var i := 0;
      while i < |calls|
        invariant 0 <= i <= |calls|
        invariant metrics == Replay(old(metrics), prefix, calls[..i])
      {
        var _ := GetOrCreate(calls[i]);
        assert calls[..i + 1][..i] == calls[..i];
        i := i + 1;
      }
      assert calls[..|calls|] == calls;
    }

    /** `counter`, `gauge`, `histogram` or `summary`, by the call's kind. */
    method GetOrCreate(c: MetricCall) returns (m: Metric)
      modifies this
      ensures (metrics, m) == Obtain(old(metrics), prefix, c)
    {
      var full := prefix + "_" + c.name;
      if full !in metrics {
        metrics := metrics[full := Metric(c.kind, full, c.description, c.labels)];
      }
      m := metrics[full];
    }
  }

  // ---------------------------------------------------------------------
  // System metrics collector

  /** Whether `collect_metrics` goes past its interval gate. */
  predicate Due(force: bool, last: int, interval: int, now: int) {
    force || now - last >= interval
  }

  /** After a collection at `t`, unforced calls are turned away until a full
      interval has passed, and let through from then on. */
  lemma CollectionSpacing(t: int, interval: int, u: int)
    ensures Due(false, t, interval, u) <==> u >= t + interval
    ensures Due(true, t, interval, u)
  {
  }

  /** What `collect_metrics` does: turn the call away, stamp it and return
      because `psutil` is missing, or stamp it and then fail. */
  datatype Collection = NotDue | Unavailable | Raised(error: PyError)

  class SystemMetricsCollector {
    const registry: MetricsRegistry
    /** Microseconds; 15 seconds by default. */
    const collectionInterval: int
    var lastCollection: int

    constructor (registry: MetricsRegistry, collectionInterval: int)
      ensures this.registry == registry && this.collectionInterval == collectionInterval && lastCollection == 0
    {
      this.registry := registry;
      this.collectionInterval := collectionInterval;
      lastCollection := 0;
    }

    /** `collect_metrics(force)` at clock reading `now`.  With `psutil`
        present the first gauge lookup passes no description, which
        `MetricsRegistry.gauge` requires, so the call raises `TypeError`
        before any metric is set or created. */
    method CollectMetrics(force: bool, now: int, psutilPresent: bool) returns (r: Collection)
      modifies this
      ensures !Due(force, old(lastCollection), collectionInterval, now) ==> r == NotDue && lastCollection == old(lastCollection)
      ensures Due(force, old(lastCollection), collectionInterval, now) ==>
        lastCollection == now && r == if psutilPresent then Raised(TypeError) else Unavailable
    {
      if !force && now - lastCollection < collectionInterval {
        return NotDue;
      }
      lastCollection := now;
      if !psutilPresent {
        return Unavailable;
      }
      return Raised(TypeError);
    }
  }

  // ---------------------------------------------------------------------
  // Health checks

  datatype HealthStatus = Healthy | Degraded | Unhealthy

  /** The string value of each status; `HealthStatus` is a `str` enum, so a
      check may report its status as the enum member or as this string. */
  function StatusValue(s: HealthStatus): string {
    match s
    case Healthy => "healthy"
    case Degraded => "degraded"
    case Unhealthy => "unhealthy"
  }

  function Rank(s: HealthStatus): nat {
    match s
    case Healthy => 0
    case Degraded => 1
    case Unhealthy => 2
  }

  /** A registered check function, by identity. */
  datatype CheckFn = CheckFn(handle: nat)

  /** `self.checks[name]`: the function and its timeout in microseconds. */
  datatype Registration = Registration(fn: CheckFn, timeout: int)

  /** 5 seconds, the default timeout of `register`. */
  const DefaultTimeout: int := 5_000_000

  /** One run of a check: it returned a `(status, details)` pair, ran past
      its timeout, or raised (a result that does not unpack into a pair
      raises too). */
  datatype Outcome = Returned(status: string, details: string) | TimedOut | Failed(message: string)

  datatype Details = Reported(details: string) | ErrorDetails(error: string)

  /** `results["checks"][name]`. */
  datatype CheckResult = CheckResult(status: string, details: Details)

  /** The dictionary `run_checks` returns. */
  datatype Report = Report(status: HealthStatus, timestamp: int, checks: map<string, CheckResult>)

  /** How a run counts towards the overall status: a returned status other
      than the three values counts as healthy. */
  function Level(o: Outcome): HealthStatus {
    match o
    case Returned(s, _) => if s == StatusValue(Unhealthy) then Unhealthy else if s == StatusValue(Degraded) then Degraded else Healthy
    case TimedOut => Unhealthy
    case Failed(_) => Unhealthy
  }

  /** The entry recorded for a run. */
  function Recorded(o: Outcome): (r: CheckResult)
    ensures o.Returned? ==> r == CheckResult(o.status, Reported(o.details))
    ensures !o.Returned? ==> r.status == StatusValue(Unhealthy) && r.details.ErrorDetails?
  {
    match o
    case Returned(s, d) => CheckResult(s, Reported(d))
    case TimedOut => CheckResult(StatusValue(Unhealthy), ErrorDetails("Health check timed out"))
    case Failed(e) => CheckResult(StatusValue(Unhealthy), ErrorDetails(e))
  }

  /** The names `run_checks` runs.  `None` and the empty list are both false
      in Python, so either means no filter; both are the empty sequence here. */
  function Selected(registered: set<string>, includes: seq<string>, excludes: seq<string>): (r: set<string>)
    ensures forall n :: n in r <==> n in registered && (includes == [] || n in includes) && n !in excludes
  {
    var chosen := if includes != [] then registered * set n | n in includes else registered;
    if excludes != [] then chosen - set n | n in excludes else chosen
  }

  class HealthCheck {
    var checks: map<string, Registration>

    constructor ()
      ensures checks == map[]
    {
      checks := map[];
    }

    /** `register(name, check_func, timeout)`: a later registration under
        the same name replaces the earlier one; the checker is returned for
        chaining. */
    method Register(name: string, fn: CheckFn, timeout: int) returns (chained: HealthCheck)
      modifies this
      ensures chained == this && checks == old(checks)[name := Registration(fn, timeout)]
    {
      checks := checks[name := Registration(fn, timeout)];
      return this;
    }

    /** `run_checks(includes, excludes)` at clock reading `now`, where
        `outcome(name, registration)` is what that check does on this run.
        Every selected check is run and recorded, and the overall status is
        the worst of theirs: unhealthy when some check is, healthy only when
        all are. */
    method RunChecks(includes: seq<string>, excludes: seq<string>, outcome: (string, Registration) -> Outcome, now: int)
      returns (report: Report)
      ensures report.timestamp == now
      ensures report.checks.Keys == Selected(checks.Keys, includes, excludes)
      ensures forall n :: n in report.checks ==> n in checks && report.checks[n] == Recorded(outcome(n, checks[n]))
      ensures report.status == Unhealthy <==> exists n :: n in report.checks && Level(outcome(n, checks[n])) == Unhealthy
      ensures report.status == Healthy <==> forall n :: n in report.checks ==> Level(outcome(n, checks[n])) == Healthy
    {
      var todo := Selected(checks.Keys, includes, excludes);
      ghost var all := todo;
      var status := Healthy;
      var results: map<string, CheckResult> := map[];
      while todo != {}
        invariant todo <= all <= checks.Keys
        invariant results.Keys == all - todo
        invariant forall n :: n in results ==> results[n] == Recorded(outcome(n, checks[n]))
        invariant status == Unhealthy <==> exists n :: n in results && Level(outcome(n, checks[n])) == Unhealthy
        invariant status == Healthy <==> forall n :: n in results ==> Level(outcome(n, checks[n])) == Healthy
        decreases todo
      {
        var name :| name in todo;
        var o := outcome(name, checks[name]);
        match o {
          case Returned(s, d) =>
            results := results[name := CheckResult(s, Reported(d))];
            if s == StatusValue(Unhealthy) && status != Unhealthy {
              status := Unhealthy;
            } else if s == StatusValue(Degraded) && status == Healthy {
              status := Degraded;
            }
          case TimedOut =>
            results := results[name := CheckResult(StatusValue(Unhealthy), ErrorDetails("Health check timed out"))];
            status := Unhealthy;
          case Failed(e) =>
            results := results[name := CheckResult(StatusValue(Unhealthy), ErrorDetails(e))];
            status := Unhealthy;
        }
        todo := todo - {name};
      }
      report := Report(status, now, results);
    }
  }

  /** The overall status ranks at least as high as every check's, and equals
      one of them when any check ran. */
  lemma WorstOf(report: Report, levels: map<string, HealthStatus>)
    requires report.checks.Keys == levels.Keys
    requires report.status == Unhealthy <==> exists n :: n in levels && levels[n] == Unhealthy
    requires report.status == Healthy <==> forall n :: n in levels ==> levels[n] == Healthy
    ensures forall n :: n in levels ==> Rank(levels[n]) <= Rank(report.status)
    ensures levels != map[] ==> exists n :: n in levels && levels[n] == report.status
  {
    if levels != map[] && report.status == Healthy {
      var n :| n in levels;
      assert levels[n] == Healthy;
    }
    if report.status == Degraded {
      var n :| n in levels && levels[n] != Healthy;
      assert levels[n] == Degraded;
    }
  }
}
