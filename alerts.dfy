/** The alerting framework of the monitoring package
    (`VisionVend/monitoring/alerts.py`).

    An alert rule fires when it is enabled, outside its cooldown and its
    condition holds on the metrics.  The alert manager keeps the rules in
    insertion order, files every fired rule's alert under its id among the
    active alerts and at the end of a bounded history, and lets alerts be
    acknowledged, resolved and escalated along a path of levels.  A
    notification channel rate-limits notifications per alert id.

    Alerts are objects shared between the active map and the history, so a
    change of state made through one is seen through the other.  Clock
    readings are parameters, in integer microseconds since the epoch.
    Sending notifications, message templating and the details template are
    not part of this model. */
module Alerts {
  import opened Text

  /** Microseconds per second. */
  const Micro: nat := 1_000_000

  /** `AlertManager.max_history`. */
  const MaxHistory: nat := 1000

  datatype Severity = Info | Warning | Error | Critical

  datatype AlertState = Active | Acknowledged | Resolved | Escalated

  /** The metric readings handed to the rules. */
  type Metrics = map<string, int>

  /** One level of an escalation path: a dictionary of settings.  Python
      treats the empty dictionary as false. */
  type Level = map<string, seq<string>>

  /** The `details["escalation"]` entry an escalation writes. */
  datatype Escalation = Escalation(path: string, level: nat, levelDetails: Level)

  // ---------------------------------------------------------------------
  // Alerts

  class Alert {
    const id: string
    const name: string
    const severity: Severity
    const message: string
    const tags: seq<string>
    const createdAt: nat
    var state: AlertState
    var updatedAt: nat
    var acknowledgedAt: Option<nat>
    var acknowledgedBy: Option<string>
    var resolvedAt: Option<nat>
    var resolvedBy: Option<string>
    var escalatedAt: Option<nat>
    var escalation: Option<Escalation>

    /** A new alert is active and was created and updated `now`. */
    constructor (id: string, name: string, severity: Severity, message: string, tags: seq<string>, now: nat)
      ensures this.id == id && this.name == name && this.severity == severity
      ensures this.message == message && this.tags == tags
      ensures createdAt == now && updatedAt == now && state == Active
      ensures acknowledgedAt == None && acknowledgedBy == None
      ensures resolvedAt == None && resolvedBy == None
      ensures escalatedAt == None && escalation == None
    {
      this.id := id;
      this.name := name;
      this.severity := severity;
      this.message := message;
      this.tags := tags;
      createdAt := now;
      updatedAt := now;
      state := Active;
      acknowledgedAt := None;
      acknowledgedBy := None;
      resolvedAt := None;
      resolvedBy := None;
      escalatedAt := None;
      escalation := None;
    }

    /** `Alert.acknowledge(by)` */
    method Acknowledge(who: Option<string>, now: nat)
      modifies this
      ensures state == Acknowledged && acknowledgedAt == Some(now) && acknowledgedBy == who && updatedAt == now
      ensures resolvedAt == old(resolvedAt) && resolvedBy == old(resolvedBy)
      ensures escalatedAt == old(escalatedAt) && escalation == old(escalation)
    {
      state := Acknowledged;
      acknowledgedAt := Some(now);
      acknowledgedBy := who;
      updatedAt := now;
    }

    /** `Alert.resolve(by)` */
    method Resolve(who: Option<string>, now: nat)
      modifies this
      ensures state == Resolved && resolvedAt == Some(now) && resolvedBy == who && updatedAt == now
      ensures acknowledgedAt == old(acknowledgedAt) && acknowledgedBy == old(acknowledgedBy)
      ensures escalatedAt == old(escalatedAt) && escalation == old(escalation)
    {
      state := Resolved;
      resolvedAt := Some(now);
      resolvedBy := who;
      updatedAt := now;
    }

    /** `Alert.escalate()` */
    method Escalate(now: nat)
      modifies this
      ensures state == Escalated && escalatedAt == Some(now) && updatedAt == now
      ensures acknowledgedAt == old(acknowledgedAt) && acknowledgedBy == old(acknowledgedBy)
      ensures resolvedAt == old(resolvedAt) && resolvedBy == old(resolvedBy)
      ensures escalation == old(escalation)
    {
      state := Escalated;
      escalatedAt := Some(now);
      updatedAt := now;
    }
  }

  // ---------------------------------------------------------------------
  // Rules

  class AlertRule {
    const name: string
    /** The condition on the metrics; `None` when evaluating it raises. */
    const condition: Metrics -> Option<bool>
    const severity: Severity
    /** The rule's message filled in from the metrics. */
    const format: Metrics -> string
    /** Seconds. */
    const cooldown: int
    const tags: seq<string>
    const enabled: bool
    var lastTriggered: Option<nat>

    constructor (name: string, condition: Metrics -> Option<bool>, severity: Severity,
                 format: Metrics -> string, cooldown: int, tags: seq<string>, enabled: bool)
      ensures this.name == name && this.condition == condition && this.severity == severity
      ensures this.format == format && this.cooldown == cooldown && this.tags == tags
      ensures this.enabled == enabled && lastTriggered == None
    {
      this.name := name;
      this.condition := condition;
      this.severity := severity;
      this.format := format;
      this.cooldown := cooldown;
      this.tags := tags;
      this.enabled := enabled;
      lastTriggered := None;
    }

    /** `AlertRule.check(metrics)` at clock reading `now`. */
    function Check(metrics: Metrics, now: nat): (b: bool)
      reads this
      ensures b == RuleFires(this, lastTriggered, metrics, now)
    {
      enabled && !(lastTriggered.Some? && now - lastTriggered.value < cooldown * Micro) && condition(metrics) == Some(true)
    }
  }

  /** Whether a rule that last fired at `last` fires at `now`: a disabled
      rule, a rule inside its cooldown and a rule whose condition raises do
      not fire; otherwise the rule fires exactly when its condition holds. */
  function RuleFires(r: AlertRule, last: Option<nat>, metrics: Metrics, now: nat): (b: bool)
    ensures !r.enabled ==> !b
    ensures last.Some? && now - last.value < r.cooldown * Micro ==> !b
    ensures r.condition(metrics).None? ==> !b
    ensures b <==> r.enabled && !(last.Some? && now - last.value < r.cooldown * Micro) && r.condition(metrics) == Some(true)
  {
    if !r.enabled then false
    else if last.Some? && now - last.value < r.cooldown * Micro then false
    else match r.condition(metrics)
      case None => false
      case Some(holds) => holds
  }

  /** The id of the alert a rule raises: `<rule>_<whole seconds>`. */
  function AlertId(rule: string, now: nat): (id: string)
    ensures StartsWith(id, rule + "_")
  {
    rule + "_" + NatToString(now / Micro)
  }

  /** The number of characters after the last `_`. */
  function TrailingRun(s: string): nat
    decreases |s|
  {
    if s == [] || s[|s| - 1] == '_' then 0 else 1 + TrailingRun(s[..|s| - 1])
  }

  lemma {:induction false} TrailingRunOf(x: string, d: string)
    requires '_' !in d
    ensures TrailingRun(x + "_" + d) == |d|
    decreases |d|
  {
    var s := x + "_" + d;
    if d != [] {
      assert s[..|s| - 1] == x + "_" + d[..|d| - 1];
      assert s[|s| - 1] == d[|d| - 1] && d[|d| - 1] in d;
      TrailingRunOf(x, d[..|d| - 1]);
    }
  }

  lemma SuffixAfterLastBar(x: string, d: string, y: string, e: string)
    requires x + "_" + d == y + "_" + e
    requires '_' !in d && '_' !in e
    ensures x == y && d == e
  {
    var s := x + "_" + d;
    TrailingRunOf(x, d);
    TrailingRunOf(y, e);
    assert d == s[|s| - |d|..] == e;
    assert x == s[..|x|] == y;
  }

  lemma NoBarInDigits(n: nat)
    ensures '_' !in NatToString(n)
  {
    var t := NatToString(n);
    forall k | 0 <= k < |t| ensures t[k] != '_' {
      assert IsDigit(t[k]);
    }
  }

  /** Alert ids determine the rule and the second: two rules never share an
      id, and one rule shares an id only with itself in the same second. */
  lemma AlertIdsDistinct(a: string, t: nat, b: string, u: nat)
    requires AlertId(a, t) == AlertId(b, u)
    ensures a == b && t / Micro == u / Micro
  {
    NoBarInDigits(t / Micro);
    NoBarInDigits(u / Micro);
    SuffixAfterLastBar(a, NatToString(t / Micro), b, NatToString(u / Micro));
    NatToStringRoundTrip(t / Micro);
    NatToStringRoundTrip(u / Micro);
  }

  // ---------------------------------------------------------------------
  // Notification channels

  /** The last send recorded for an alert id; an id never sent counts as 0. */
  function LastSent(last: map<string, nat>, id: string): nat {
    if id in last then last[id] else 0
  }

  /** The rate-limit gate of a channel: whether a notification for `id` may
      go out at `now`, and the record of sends afterwards. */
  function Gate(last: map<string, nat>, rateLimit: int, id: string, now: nat): (r: (bool, map<string, nat>))
    ensures r.0 <==> now - LastSent(last, id) >= rateLimit * Micro
    ensures r.0 ==> r.1 == last[id := now]
    ensures !r.0 ==> r.1 == last
  {
    if now - LastSent(last, id) >= rateLimit * Micro then (true, last[id := now]) else (false, last)
  }

  /** Once a notification for `id` went out, the next one waits a full rate
      limit, and the gates of other ids are not affected. */
  lemma RateLimitWindow(last: map<string, nat>, rateLimit: int, id: string, now: nat, later: nat, other: string)
    requires Gate(last, rateLimit, id, now).0
    requires later - now < rateLimit * Micro
    requires other != id
    ensures !Gate(Gate(last, rateLimit, id, now).1, rateLimit, id, later).0
    ensures Gate(Gate(last, rateLimit, id, now).1, rateLimit, other, later).0 == Gate(last, rateLimit, other, later).0
  {
    var after := Gate(last, rateLimit, id, now).1;
    assert LastSent(after, id) == now;
    assert LastSent(after, other) == LastSent(last, other);
  }

  class NotificationChannel {
    const name: string
    /** Seconds. */
    const rateLimit: int
    var lastNotification: map<string, nat>

    constructor (name: string, rateLimit: int)
      ensures this.name == name && this.rateLimit == rateLimit && lastNotification == map[]
    {
      this.name := name;
      this.rateLimit := rateLimit;
      lastNotification := map[];
    }

    /** `NotificationChannel.can_send(alert_id)` at clock reading `now`. */
    method CanSend(alertId: string, now: nat) returns (ok: bool)
      modifies this
      ensures (ok, lastNotification) == Gate(old(lastNotification), rateLimit, alertId, now)
    {
      var lastTime := if alertId in lastNotification then lastNotification[alertId] else 0;
      if now - lastTime >= rateLimit * Micro {
        lastNotification := lastNotification[alertId := now];
        return true;
      }
      return false;
    }
  }

  // ---------------------------------------------------------------------
  // Escalation paths

  /** One call of `next_level` on a path whose cursor is at `cur`: the level
      there and the advanced cursor, or nothing once the levels are used up. */
  function Advance(levels: seq<Level>, cur: nat): (r: (Option<Level>, nat))
    ensures cur < |levels| ==> r == (Some(levels[cur]), cur + 1)
    ensures cur >= |levels| ==> r == (None, cur)
    ensures cur <= |levels| ==> r.1 <= |levels|
  {
    if cur >= |levels| then (None, cur) else (Some(levels[cur]), cur + 1)
  }

  /** The results of `k` successive calls of `next_level`. */
  function Walk(levels: seq<Level>, cur: nat, k: nat): seq<Option<Level>>
    decreases k
  {
    if k == 0 then [] else [Advance(levels, cur).0] + Walk(levels, Advance(levels, cur).1, k - 1)
  }

  /** Successive calls hand out the remaining levels in order, each once,
      and nothing after them. */
  lemma {:induction false} WalkInOrder(levels: seq<Level>, cur: nat, k: nat)
    requires cur <= |levels|
    ensures |Walk(levels, cur, k)| == k
    ensures forall j :: 0 <= j < k ==> Walk(levels, cur, k)[j] == if cur + j < |levels| then Some(levels[cur + j]) else None
    decreases k
  {
    if k > 0 {
      var next := Advance(levels, cur).1;
      WalkInOrder(levels, next, k - 1);
      var w := Walk(levels, cur, k);
      forall j | 0 <= j < k
        ensures w[j] == if cur + j < |levels| then Some(levels[cur + j]) else None
      {
        if j > 0 {
          assert w[j] == Walk(levels, next, k - 1)[j - 1];
          if cur < |levels| {
            assert next == cur + 1;
          } else {
            assert next == cur;
          }
        }
      }
    }
  }

  class EscalationPath {
    const name: string
    const levels: seq<Level>
    var currentLevel: nat

    constructor (name: string, levels: seq<Level>)
      ensures this.name == name && this.levels == levels && currentLevel == 0
    {
      this.name := name;
      this.levels := levels;
      currentLevel := 0;
    }

    /** `EscalationPath.next_level()` */
    method NextLevel() returns (level: Option<Level>)
      modifies this
      ensures (level, currentLevel) == Advance(levels, old(currentLevel))
    {
      if currentLevel >= |levels| {
        return None;
      }
      level := Some(levels[currentLevel]);
      currentLevel := currentLevel + 1;
    }
  }

  // ---------------------------------------------------------------------
  // History

  /** `alert_history = alert_history[-max_history:]` when it grew too long. */
  function Trim(h: seq<Alert>): (r: seq<Alert>)
    ensures |r| <= MaxHistory || r == h
    ensures |h| <= MaxHistory ==> r == h
    ensures |h| > MaxHistory ==> |r| == MaxHistory && h == h[..|h| - MaxHistory] + r
  {
    if |h| > MaxHistory then h[|h| - MaxHistory..] else h
  }

  /** The last `n` entries of `s`, or all of them. */
  function LastN<T>(s: seq<T>, n: nat): (r: seq<T>)
    ensures |r| == Min(n, |s|)
    ensures s == s[..|s| - |r|] + r
  {
    if |s| > n then s[|s| - n..] else s
  }

  /** The history after appending the alerts one at a time, trimming each time. */
  function Retain(h: seq<Alert>, alerts: seq<Alert>): seq<Alert>
    decreases |alerts|
  {
    if alerts == [] then h else Trim(Retain(h, alerts[..|alerts| - 1]) + [alerts[|alerts| - 1]])
  }

  /** Trimming after every append keeps exactly the newest `max_history`
      entries of the whole sequence. */
  lemma {:induction false} RetainKeepsNewest(h: seq<Alert>, alerts: seq<Alert>)
    requires |h| <= MaxHistory
    ensures Retain(h, alerts) == LastN(h + alerts, MaxHistory)
    decreases |alerts|
  {
    if alerts == [] {
      assert h + alerts == h;
    } else {
      var front := alerts[..|alerts| - 1];
      var a := alerts[|alerts| - 1];
      RetainKeepsNewest(h, front);
      assert h + alerts == (h + front) + [a];
      var s := h + front;
      if |s| >= MaxHistory {
        assert LastN(s, MaxHistory) + [a] == s[|s| - MaxHistory..] + [a];
        assert Trim(s[|s| - MaxHistory..] + [a]) == (s + [a])[|s| + 1 - MaxHistory..];
      }
    }
  }

  /** A history query: `limit` and the optional filters. */
  datatype HistoryQuery = HistoryQuery(limit: int, severity: Option<Severity>, startTime: Option<nat>, endTime: Option<nat>)

  predicate Unfiltered(q: HistoryQuery) {
    q.severity.None? && q.startTime.None? && q.endTime.None?
  }

  predicate Matches(a: Alert, q: HistoryQuery) {
    && (q.severity.Some? ==> a.severity == q.severity.value)
    && (q.startTime.Some? ==> a.createdAt >= q.startTime.value)
    && (q.endTime.Some? ==> a.createdAt <= q.endTime.value)
  }

  /** The alerts of `s` that pass the filters, in their order. */
  function Filter(s: seq<Alert>, q: HistoryQuery): (r: seq<Alert>)
    ensures forall k :: 0 <= k < |r| ==> r[k] in s && Matches(r[k], q)
    ensures forall k :: 0 <= k < |s| && Matches(s[k], q) ==> s[k] in r
    ensures multiset(r) <= multiset(s)
    ensures Unfiltered(q) ==> r == s
    decreases |s|
  {
    if s == [] then []
    else
      var rest := Filter(s[..|s| - 1], q);
      assert s == s[..|s| - 1] + [s[|s| - 1]];
      if Matches(s[|s| - 1], q) then rest + [s[|s| - 1]] else rest
  }

  /** Newest first. */
  predicate Descending(s: seq<Alert>) {
    forall i, j :: 0 <= i < j < |s| ==> s[i].createdAt >= s[j].createdAt
  }

  /** Puts `x` after every alert at least as new as it. */
  function Insert(t: seq<Alert>, x: Alert): (r: seq<Alert>)
    ensures multiset(r) == multiset(t) + multiset{x}
    ensures |r| == |t| + 1
    decreases |t|
  {
    if t == [] then [x]
    else if t[0].createdAt >= x.createdAt then
      assert t == [t[0]] + t[1..];
      [t[0]] + Insert(t[1..], x)
    else [x] + t
  }

  lemma {:induction false} InsertBounded(t: seq<Alert>, x: Alert, b: int)
    requires forall k :: 0 <= k < |t| ==> t[k].createdAt <= b
    requires x.createdAt <= b
    ensures forall k :: 0 <= k < |Insert(t, x)| ==> Insert(t, x)[k].createdAt <= b
    decreases |t|
  {
    if t != [] && t[0].createdAt >= x.createdAt {
      InsertBounded(t[1..], x, b);
    }
  }

  lemma {:induction false} InsertDescending(t: seq<Alert>, x: Alert)
    requires Descending(t)
    ensures Descending(Insert(t, x))
    decreases |t|
  {
    if t == [] {
      assert Insert(t, x) == [x];
    } else if t[0].createdAt >= x.createdAt {
      InsertDescending(t[1..], x);
      InsertBounded(t[1..], x, t[0].createdAt);
      PrependNewest(t[0], Insert(t[1..], x));
    } else {
      PrependNewest(x, t);
    }
  }

  /** An alert at least as new as every alert of a newest-first sequence can go in front. */
  lemma PrependNewest(x: Alert, t: seq<Alert>)
    requires Descending(t)
    requires forall k :: 0 <= k < |t| ==> t[k].createdAt <= x.createdAt
    ensures Descending([x] + t)
  {
    var r := [x] + t;
    forall i, j | 0 <= i < j < |r| ensures r[i].createdAt >= r[j].createdAt {
      assert r[j] == t[j - 1];
      if i > 0 {
        assert r[i] == t[i - 1];
      }
    }
  }

  /** `sort(key=created_at, reverse=True)`: a stable sort, newest first. */
  function SortDesc(s: seq<Alert>): (r: seq<Alert>)
    ensures multiset(r) == multiset(s) && |r| == |s|
    ensures Descending(r)
    decreases |s|
  {
    if s == [] then []
    else
      assert s == s[..|s| - 1] + [s[|s| - 1]];
      var t := SortDesc(s[..|s| - 1]);
      InsertDescending(t, s[|s| - 1]);
      Insert(t, s[|s| - 1])
  }

  /** `s[:limit]` with Python's treatment of a negative limit. */
  function PyPrefix(s: seq<Alert>, limit: int): (r: seq<Alert>)
    ensures |r| <= |s| && r == s[..|r|]
    ensures limit >= 0 ==> |r| == Min(limit, |s|)
    ensures limit < 0 ==> |r| == Max(0, |s| + limit)
  {
    if limit >= 0 then s[..Min(limit, |s|)] else s[..Max(0, |s| + limit)]
  }

  /** What `get_alert_history` returns. */
  function HistoryResult(h: seq<Alert>, q: HistoryQuery): seq<Alert> {
    PyPrefix(SortDesc(Filter(h, q)), q.limit)
  }

  lemma PrefixKeeps(s: seq<Alert>, limit: int)
    ensures multiset(PyPrefix(s, limit)) <= multiset(s)
    ensures Descending(s) ==> Descending(PyPrefix(s, limit))
    ensures limit >= |s| ==> PyPrefix(s, limit) == s
  {
    var r := PyPrefix(s, limit);
    assert s == r + s[|r|..];
    assert multiset(s) == multiset(r) + multiset(s[|r|..]);
  }

  /** The result passes the filters, comes from the history, is newest first
      and holds at most `limit` alerts; a limit that covers the matches
      returns all of them. */
  lemma HistoryQuerySound(h: seq<Alert>, q: HistoryQuery)
    ensures var r := HistoryResult(h, q);
      && (forall a :: a in r ==> a in h && Matches(a, q))
      && Descending(r)
      && (q.limit >= 0 ==> |r| <= q.limit)
      && multiset(r) <= multiset(h)
      && (q.limit >= |Filter(h, q)| ==> multiset(r) == multiset(Filter(h, q)))
  {
    var f := Filter(h, q);
    var sorted := SortDesc(f);
    PrefixKeeps(sorted, q.limit);
    var r := PyPrefix(sorted, q.limit);
    forall a | a in r ensures a in h && Matches(a, q) {
      assert a in multiset(r);
      assert a in multiset(f);
      var k :| 0 <= k < |f| && f[k] == a;
    }
  }

  predicate StrictlyAscending(s: seq<Alert>) {
    forall i, j :: 0 <= i < j < |s| ==> s[i].createdAt < s[j].createdAt
  }

  function Reverse<T>(s: seq<T>): (r: seq<T>)
    ensures |r| == |s|
    ensures forall k :: 0 <= k < |s| ==> r[k] == s[|s| - 1 - k]
    decreases |s|
  {
    if s == [] then [] else [s[|s| - 1]] + Reverse(s[..|s| - 1])
  }

  /** A history appended in time order comes out of the sort reversed. */
  lemma {:induction false} SortAscendingReverses(s: seq<Alert>)
    requires StrictlyAscending(s)
    ensures SortDesc(s) == Reverse(s)
    decreases |s|
  {
    if s != [] {
      var front := s[..|s| - 1];
      assert StrictlyAscending(front);
      SortAscendingReverses(front);
      var t := Reverse(front);
      if t != [] {
        assert t[0] == front[|front| - 1];
        assert t[0].createdAt < s[|s| - 1].createdAt;
      }
      assert Insert(t, s[|s| - 1]) == [s[|s| - 1]] + t;
    }
  }

  /** Appending to a full history drops its first entry. */
  lemma TrimFullDropsFirst(s: seq<Alert>, a: Alert)
    requires |s| == MaxHistory
    ensures Trim(s + [a]) == s[1..] + [a]
  {
  }

  /** Appending to a full history of distinct alerts drops its first entry
      and keeps its last one. */
  lemma FullAppendKeepsLast(s: seq<Alert>, a: Alert)
    requires |s| == MaxHistory
    requires forall k :: 0 < k < |s| ==> s[k] != s[0]
    requires a != s[0]
    ensures s[|s| - 1] in Trim(s + [a]) && s[0] !in Trim(s + [a])
  {
    TrimFullDropsFirst(s, a);
    var kept := s[1..] + [a];
    assert kept[|s| - 2] == s[|s| - 1];
    forall k | 0 <= k < |kept| ensures kept[k] != s[0] {
      if k < |s| - 1 {
        assert kept[k] == s[k + 1];
      }
    }
  }

  /** An unfiltered history query sorts the manager's own history newest
      first, so once the history is full the next trim discards the newest
      earlier alert instead of the oldest. */
  lemma QueryThenAppendDropsNewest(h: seq<Alert>, a: Alert)
    requires |h| == MaxHistory && StrictlyAscending(h) && a !in h
    ensures h[|h| - 1] in Trim(h + [a]) && h[0] !in Trim(h + [a])
    ensures h[|h| - 1] !in Trim(SortDesc(h) + [a]) && h[0] in Trim(SortDesc(h) + [a])
  {
    var n := |h|;
    AscendingEnds(h);
    FullAppendKeepsLast(h, a);
    SortAscendingReverses(h);
    var r := Reverse(h);
    forall k | 0 < k < n ensures r[k] != r[0] {
      assert r[k] == h[n - 1 - k];
    }
    FullAppendKeepsLast(r, a);
  }

  /** In a strictly time-ordered sequence the first and the last alert occur once. */
  lemma AscendingEnds(h: seq<Alert>)
    requires StrictlyAscending(h) && |h| > 0
    ensures forall k :: 0 < k < |h| ==> h[k] != h[0]
    ensures forall k :: 0 <= k < |h| - 1 ==> h[k] != h[|h| - 1]
  {
    forall k | 0 < k < |h| ensures h[k] != h[0] {
      assert h[0].createdAt < h[k].createdAt;
    }
    forall k | 0 <= k < |h| - 1 ensures h[k] != h[|h| - 1] {
      assert h[k].createdAt < h[|h| - 1].createdAt;
    }
  }

  // ---------------------------------------------------------------------
  // The alert manager

  /** The names in `names`, in order, of the rules that fire on `metrics` at
      `now` when each last fired at the time `last` records. */
  function Fired(names: seq<string>, rules: map<string, AlertRule>, last: map<string, Option<nat>>,
                 metrics: Metrics, now: nat): (r: seq<string>)
    ensures |r| <= |names|
    ensures forall k :: 0 <= k < |r| ==>
      r[k] in names && r[k] in rules && r[k] in last && RuleFires(rules[r[k]], last[r[k]], metrics, now)
    ensures forall k :: (0 <= k < |names| && names[k] in rules && names[k] in last
      && RuleFires(rules[names[k]], last[names[k]], metrics, now)) ==> names[k] in r
    decreases |names|
  {
    if names == [] then []
    else
      var n := names[|names| - 1];
      var front := Fired(names[..|names| - 1], rules, last, metrics, now);
      assert names == names[..|names| - 1] + [n];
      if n in rules && n in last && RuleFires(rules[n], last[n], metrics, now) then front + [n] else front
  }

  /** One more name: the fired names grow by that name exactly when its rule fires. */
  lemma FiredStep(names: seq<string>, i: nat, rules: map<string, AlertRule>, last: map<string, Option<nat>>,
                  metrics: Metrics, now: nat)
    requires i < |names|
    ensures Fired(names[..i + 1], rules, last, metrics, now)
      == Fired(names[..i], rules, last, metrics, now)
         + (if names[i] in rules && names[i] in last && RuleFires(rules[names[i]], last[names[i]], metrics, now)
            then [names[i]] else [])
  {
    assert names[..i + 1][..i] == names[..i];
  }

  predicate DistinctNames(s: seq<string>) {
    forall i, j :: 0 <= i < j < |s| ==> s[i] != s[j]
  }

  /** Distinct rule names fire at most once each. */
  lemma {:induction false} FiredDistinct(names: seq<string>, rules: map<string, AlertRule>,
                                          last: map<string, Option<nat>>, metrics: Metrics, now: nat)
    requires DistinctNames(names)
    ensures DistinctNames(Fired(names, rules, last, metrics, now))
    decreases |names|
  {
    if names != [] {
      var front := names[..|names| - 1];
      var n := names[|names| - 1];
      FiredDistinct(front, rules, last, metrics, now);
      var f := Fired(front, rules, last, metrics, now);
      forall k | 0 <= k < |f| ensures f[k] != n {
        assert f[k] in front;
      }
    }
  }

  /** The last trigger time of each rule. */
  function LastTimes(rules: map<string, AlertRule>): (r: map<string, Option<nat>>)
    reads rules.Values
    ensures r.Keys == rules.Keys
  {
    map n | n in rules :: rules[n].lastTriggered
  }

  /** The trigger times after the rules in `fired` fired at `now`. */
  function Stamp(last: map<string, Option<nat>>, fired: seq<string>, now: nat): (r: map<string, Option<nat>>)
    ensures r.Keys == last.Keys
  {
    map n | n in last :: if n in fired then Some(now) else last[n]
  }

  /** A rule that fired fires again only once its cooldown has passed. */
  lemma CooldownSilences(names: seq<string>, rules: map<string, AlertRule>, last: map<string, Option<nat>>,
                         metrics: Metrics, now: nat, metrics2: Metrics, later: nat)
    ensures var fired := Fired(names, rules, last, metrics, now);
      forall k :: 0 <= k < |fired| && fired[k] in Fired(names, rules, Stamp(last, fired, now), metrics2, later) ==>
        later - now >= rules[fired[k]].cooldown * Micro
  {
    var fired := Fired(names, rules, last, metrics, now);
    var again := Fired(names, rules, Stamp(last, fired, now), metrics2, later);
    forall k | 0 <= k < |fired| && fired[k] in again
      ensures later - now >= rules[fired[k]].cooldown * Micro
    {
      var j :| 0 <= j < |again| && again[j] == fired[k];
      assert Stamp(last, fired, now)[fired[k]] == Some(now);
    }
  }

  /** `a` carries what rule `r` puts into the alert it raises on `metrics` at `now`. */
  predicate RaisedBy(a: Alert, r: AlertRule, metrics: Metrics, now: nat) {
    && a.id == AlertId(r.name, now) && a.name == r.name && a.severity == r.severity
    && a.message == r.format(metrics) && a.tags == r.tags && a.createdAt == now
  }

  /** `a` is still as it was raised at `now`. */
  predicate Untouched(a: Alert, now: nat)
    reads a
  {
    a.state == Active && a.updatedAt == now && a.escalation == None
  }

  /** `a` is the alert that rule `r` raises on `metrics` at `now`. */
  predicate Raised(a: Alert, r: AlertRule, metrics: Metrics, now: nat)
    reads a
  {
    RaisedBy(a, r, metrics, now) && Untouched(a, now)
  }

  /** The active alerts after filing `alerts` one after the other under their ids. */
  function Registered(active: map<string, Alert>, alerts: seq<Alert>): map<string, Alert>
    decreases |alerts|
  {
    if alerts == [] then active
    else Registered(active, alerts[..|alerts| - 1])[alerts[|alerts| - 1].id := alerts[|alerts| - 1]]
  }

  /** Filing alerts with distinct ids keeps every one of them under its id
      and every other entry as it was, and adds nothing else. */
  lemma RegisteredFiles(active: map<string, Alert>, alerts: seq<Alert>)
    requires forall i, j :: 0 <= i < j < |alerts| ==> alerts[i].id != alerts[j].id
    ensures var r := Registered(active, alerts);
      && (forall k :: 0 <= k < |alerts| ==> alerts[k].id in r && r[alerts[k].id] == alerts[k])
      && (forall id :: id in active && (forall k :: 0 <= k < |alerts| ==> alerts[k].id != id) ==> id in r && r[id] == active[id])
      && (forall id :: id in r ==> id in active || exists k :: 0 <= k < |alerts| && alerts[k].id == id)
  {
    RegisteredKeeps(active, alerts);
    RegisteredOnly(active, alerts);
  }

  lemma {:induction false} RegisteredKeeps(active: map<string, Alert>, alerts: seq<Alert>)
    requires forall i, j :: 0 <= i < j < |alerts| ==> alerts[i].id != alerts[j].id
    ensures var r := Registered(active, alerts);
      && (forall k :: 0 <= k < |alerts| ==> alerts[k].id in r && r[alerts[k].id] == alerts[k])
      && (forall id :: id in active && (forall k :: 0 <= k < |alerts| ==> alerts[k].id != id) ==> id in r && r[id] == active[id])
    decreases |alerts|
  {
    if alerts != [] {
      var front := alerts[..|alerts| - 1];
      RegisteredKeeps(active, front);
      var last := alerts[|alerts| - 1];
      forall k | 0 <= k < |front| ensures front[k].id != last.id {
        assert front[k] == alerts[k];
      }
    }
  }

  lemma {:induction false} RegisteredOnly(active: map<string, Alert>, alerts: seq<Alert>)
    ensures forall id :: id in Registered(active, alerts) ==> id in active || exists k :: 0 <= k < |alerts| && alerts[k].id == id
    decreases |alerts|
  {
    if alerts != [] {
      var front := alerts[..|alerts| - 1];
      RegisteredOnly(active, front);
      forall id | id in Registered(active, alerts) ensures id in active || exists k :: 0 <= k < |alerts| && alerts[k].id == id {
        if id != alerts[|alerts| - 1].id && id !in active {
          var k :| 0 <= k < |front| && front[k].id == id;
          assert alerts[k].id == id;
        }
      }
    }
  }

  /** The alerts of one check, raised by rules with distinct names at one
      clock reading, have distinct ids. */
  lemma RaisedIdsDistinct(alerts: seq<Alert>, fired: seq<string>, rules: map<string, AlertRule>,
                          metrics: Metrics, now: nat)
    requires |alerts| == |fired| && DistinctNames(fired)
    requires forall k :: 0 <= k < |fired| ==> fired[k] in rules && rules[fired[k]].name == fired[k]
    requires forall k :: 0 <= k < |fired| ==> Raised(alerts[k], rules[fired[k]], metrics, now)
    ensures forall i, j :: 0 <= i < j < |alerts| ==> alerts[i].id != alerts[j].id
  {
    forall i, j | 0 <= i < j < |alerts| ensures alerts[i].id != alerts[j].id {
      if alerts[i].id == alerts[j].id {
        AlertIdsDistinct(fired[i], now, fired[j], now);
      }
    }
  }

  /** `names` without `x`, in order. */
  function Without(s: seq<string>, x: string): (r: seq<string>)
    ensures forall y :: y in r <==> y in s && y != x
    ensures DistinctNames(s) ==> DistinctNames(r)
    decreases |s|
  {
    if s == [] then []
    else
      assert s == [s[0]] + s[1..];
      var rest := Without(s[1..], x);
      assert DistinctNames(s) ==> s[0] !in s[1..] && DistinctNames(s[1..]);
      if s[0] == x then rest else [s[0]] + rest
  }

  class AlertManager {
    /** The rule names in the insertion order of the `rules` dictionary. */
    var ruleNames: seq<string>
    var rules: map<string, AlertRule>
    var paths: map<string, EscalationPath>
    var active: map<string, Alert>
    var history: seq<Alert>

    ghost predicate Valid()
      reads this, active.Values
    {
      && (forall n :: n in rules <==> n in ruleNames)
      && DistinctNames(ruleNames)
      && (forall n :: n in rules ==> rules[n].name == n)
      && (forall id :: id in active ==> active[id].id == id && active[id].state != Resolved)
      && |history| <= MaxHistory
    }

    constructor ()
      ensures Valid()
      ensures ruleNames == [] && rules == map[] && paths == map[] && active == map[] && history == []
    {
      ruleNames := [];
      rules := map[];
      paths := map[];
      active := map[];
      history := [];
    }

    /** `add_rule(rule)`: a new name goes last, a known one keeps its place. */
    method AddRule(r: AlertRule)
      requires Valid()
      modifies this
      ensures Valid()
      ensures rules == old(rules)[r.name := r]
      ensures ruleNames == if r.name in old(rules) then old(ruleNames) else old(ruleNames) + [r.name]
      ensures paths == old(paths) && active == old(active) && history == old(history)
    {
      if r.name !in rules {
        ruleNames := ruleNames + [r.name];
      }
      rules := rules[r.name := r];
    }

    /** `remove_rule(name)` */
    method RemoveRule(name: string)
      requires Valid()
      modifies this
      ensures Valid()
      ensures rules == old(rules) - {name} && ruleNames == Without(old(ruleNames), name)
      ensures paths == old(paths) && active == old(active) && history == old(history)
    {
      rules := rules - {name};
      ruleNames := Without(ruleNames, name);
    }

    /** `add_escalation_path(path)` */
    method AddEscalationPath(p: EscalationPath)
      requires Valid()
      modifies this
      ensures Valid()
      ensures paths == old(paths)[p.name := p]
      ensures ruleNames == old(ruleNames) && rules == old(rules) && active == old(active) && history == old(history)
    {
      paths := paths[p.name := p];
    }

    /** `remove_escalation_path(name)` */
    method RemoveEscalationPath(name: string)
      requires Valid()
      modifies this
      ensures Valid()
      ensures paths == old(paths) - {name}
      ensures ruleNames == old(ruleNames) && rules == old(rules) && active == old(active) && history == old(history)
    {
      paths := paths - {name};
    }

    /** The bookkeeping for one fired rule: its alert is filed under its id,
        appended to the history and the history trimmed, and the rule's last
        trigger time set. */
    method RaiseAlert(rule: AlertRule, metrics: Metrics, now: nat) returns (alert: Alert)
      requires Valid() && rule.name in rules && rules[rule.name] == rule
      modifies this, rule
      ensures Valid()
      ensures fresh(alert) && Raised(alert, rule, metrics, now)
      ensures active == old(active)[alert.id := alert]
      ensures history == Trim(old(history) + [alert])
      ensures rule.lastTriggered == Some(now)
      ensures ruleNames == old(ruleNames) && rules == old(rules) && paths == old(paths)
    {
      var id := rule.name + "_" + NatToString(now / Micro);
      alert := new Alert(id, rule.name, rule.severity, rule.format(metrics), rule.tags, now);
      active := active[id := alert];
      history := history + [alert];
      if |history| > MaxHistory {
        history := history[|history| - MaxHistory..];
      }
      rule.lastTriggered := Some(now);
    }

    /** The state of `check_and_alert` after the first `i` rules of `names`:
        the rules among them that fired, each with its new alert, filed among
        the active alerts and in the history, and stamped with `now`. */
    ghost predicate Round(names: seq<string>, i: nat, last0: map<string, Option<nat>>, active0: map<string, Alert>,
                          history0: seq<Alert>, fired: seq<string>, triggered: seq<Alert>, metrics: Metrics, now: nat)
      reads this, rules.Values, active.Values, triggered
    {
      && i <= |names| && names == ruleNames && last0.Keys == rules.Keys
      && Valid()
      && fired == Fired(names[..i], rules, last0, metrics, now)
      && |triggered| == |fired|
      && (forall k :: 0 <= k < |fired| ==> RaisedBy(triggered[k], rules[fired[k]], metrics, now))
      && (forall k :: 0 <= k < |triggered| ==> Untouched(triggered[k], now))
      && active == Registered(active0, triggered)
      && history == Retain(history0, triggered)
      && (forall n :: n in rules ==> rules[n].lastTriggered == if n in fired then Some(now) else last0[n])
    }

    /** The outcome of `check_and_alert` over the rules `names`, which last
        fired at the times `last0`, on `metrics` at `now`: `triggered` holds,
        in rule order, one alert raised by each rule that fires, each filed
        in the active alerts `active0` under its id and appended to the
        trimmed history `history0`, and each of those rules is stamped with `now`. */
    ghost predicate Checked(names: seq<string>, last0: map<string, Option<nat>>, active0: map<string, Alert>,
                            history0: seq<Alert>, triggered: seq<Alert>, metrics: Metrics, now: nat)
      reads this, rules.Values, triggered
    {
      var fired := Fired(names, rules, last0, metrics, now);
      && last0.Keys == rules.Keys
      && |triggered| == |fired|
      && (forall k :: 0 <= k < |fired| ==> Raised(triggered[k], rules[fired[k]], metrics, now))
      && active == Registered(active0, triggered)
      && history == Retain(history0, triggered)
      && (forall n :: n in rules ==> rules[n].lastTriggered == if n in fired then Some(now) else last0[n])
    }

    /** After a check, every rule's last trigger time is the one from before
        the check, or `now` for the rules that fired. */
    lemma CheckedStamps(names: seq<string>, last0: map<string, Option<nat>>, active0: map<string, Alert>,
                        history0: seq<Alert>, triggered: seq<Alert>, metrics: Metrics, now: nat)
      requires Checked(names, last0, active0, history0, triggered, metrics, now)
      ensures LastTimes(rules) == Stamp(last0, Fired(names, rules, last0, metrics, now), now)
    {
    }

    /** After the last round the loop state is the outcome of the whole check. */
    lemma RoundComplete(names: seq<string>, last0: map<string, Option<nat>>, active0: map<string, Alert>,
                        history0: seq<Alert>, fired: seq<string>, triggered: seq<Alert>, metrics: Metrics, now: nat)
      requires Round(names, |names|, last0, active0, history0, fired, triggered, metrics, now)
      ensures Valid()
      ensures Checked(names, last0, active0, history0, triggered, metrics, now)
    {
      assert names[..|names|] == names;
    }

    /** Before the first round nothing has fired. */
    lemma RoundStart(metrics: Metrics, now: nat)
      requires Valid()
      ensures Round(ruleNames, 0, LastTimes(rules), active, history, [], [], metrics, now)
    {
      assert ruleNames[..0] == [];
    }

    /** The rule of round `i` has not fired in this check yet, so it is
        checked against its last trigger time from before the check. */
    lemma RoundRule(names: seq<string>, i: nat, last0: map<string, Option<nat>>, active0: map<string, Alert>,
                    history0: seq<Alert>, fired: seq<string>, triggered: seq<Alert>, metrics: Metrics, now: nat)
      requires i < |names|
      requires Round(names, i, last0, active0, history0, fired, triggered, metrics, now)
      ensures names[i] in rules && names[i] !in fired && rules[names[i]].lastTriggered == last0[names[i]]
      ensures Fired(names[..i + 1], rules, last0, metrics, now)
        == fired + (if RuleFires(rules[names[i]], last0[names[i]], metrics, now) then [names[i]] else [])
    {
      var name := names[i];
      FiredStep(names, i, rules, last0, metrics, now);
      forall k | 0 <= k < |fired| ensures fired[k] != name {
        assert fired[k] in names[..i];
      }
    }

    /** A round whose rule does not fire changes nothing. */
    lemma RoundSkip(names: seq<string>, i: nat, last0: map<string, Option<nat>>, active0: map<string, Alert>,
                    history0: seq<Alert>, fired: seq<string>, triggered: seq<Alert>, metrics: Metrics, now: nat)
      requires i < |names|
      requires Round(names, i, last0, active0, history0, fired, triggered, metrics, now)
      requires !RuleFires(rules[names[i]], last0[names[i]], metrics, now)
      ensures Round(names, i + 1, last0, active0, history0, fired, triggered, metrics, now)
    {
      RoundRule(names, i, last0, active0, history0, fired, triggered, metrics, now);
    }

    /** The loop state after a fired rule's alert has been filed, from the
        loop state before it and what filing the alert changed. */
    lemma RoundExtend(names: seq<string>, i: nat, last0: map<string, Option<nat>>, active0: map<string, Alert>,
                      history0: seq<Alert>, fired: seq<string>, triggered: seq<Alert>, alert: Alert,
                      activeBefore: map<string, Alert>, historyBefore: seq<Alert>, metrics: Metrics, now: nat)
      requires i < |names| && names == ruleNames && last0.Keys == rules.Keys && Valid()
      requires fired + [names[i]] == Fired(names[..i + 1], rules, last0, metrics, now)
      requires |triggered| == |fired| && names[i] in rules
      requires forall k :: 0 <= k < |fired| ==> fired[k] in rules && RaisedBy(triggered[k], rules[fired[k]], metrics, now)
      requires RaisedBy(alert, rules[names[i]], metrics, now)
      requires forall k :: 0 <= k < |triggered| ==> Untouched(triggered[k], now)
      requires Untouched(alert, now)
      requires activeBefore == Registered(active0, triggered) && active == activeBefore[alert.id := alert]
      requires historyBefore == Retain(history0, triggered) && history == Trim(historyBefore + [alert])
      requires forall n :: n in rules ==> rules[n].lastTriggered == if n in fired + [names[i]] then Some(now) else last0[n]
      ensures Round(names, i + 1, last0, active0, history0, fired + [names[i]], triggered + [alert], metrics, now)
    {
      var t := triggered + [alert];
      assert t[..|t| - 1] == triggered;
      forall k | 0 <= k < |t| ensures Untouched(t[k], now) {
        if k < |triggered| {
          assert t[k] == triggered[k];
        }
      }
      forall k | 0 <= k < |t| ensures RaisedBy(t[k], rules[(fired + [names[i]])[k]], metrics, now) {
        if k < |triggered| {
          assert t[k] == triggered[k];
        }
      }
    }

    /** A round whose rule fires raises its alert. */
    method RoundFire(names: seq<string>, i: nat, ghost last0: map<string, Option<nat>>, ghost active0: map<string, Alert>,
                     ghost history0: seq<Alert>, ghost fired: seq<string>, triggered: seq<Alert>, metrics: Metrics, now: nat)
      returns (alert: Alert)
      requires i < |names|
      requires Round(names, i, last0, active0, history0, fired, triggered, metrics, now)
      requires RuleFires(rules[names[i]], last0[names[i]], metrics, now)
      modifies this, rules.Values
      ensures fresh(alert)
      ensures Round(names, i + 1, last0, active0, history0, fired + [names[i]], triggered + [alert], metrics, now)
      ensures ruleNames == old(ruleNames) && rules == old(rules) && paths == old(paths)
    {
      RoundRule(names, i, last0, active0, history0, fired, triggered, metrics, now);
      var rule := rules[names[i]];
      ghost var activeBefore, historyBefore := active, history;
      alert := RaiseAlert(rule, metrics, now);
      forall n | n in rules
        ensures rules[n].lastTriggered == if n in fired + [names[i]] then Some(now) else last0[n]
      {
        if n != names[i] {
          assert rules[n] != rule;
          assert rules[n].lastTriggered == old(rules[n].lastTriggered);
        }
      }
      forall k | 0 <= k < |triggered| ensures Untouched(triggered[k], now) {
        assert old(Untouched(triggered[k], now));
      }
      RoundExtend(names, i, last0, active0, history0, fired, triggered, alert, activeBefore, historyBefore, metrics, now);
    }

    /** `Round`, stated as one fact. */
    ghost predicate RoundDone(names: seq<string>, i: nat, last0: map<string, Option<nat>>, active0: map<string, Alert>,
                              history0: seq<Alert>, fired: seq<string>, triggered: seq<Alert>, metrics: Metrics, now: nat)
      reads this, rules.Values, active.Values, triggered
    {
      Round(names, i, last0, active0, history0, fired, triggered, metrics, now)
    }

    /** One round of the loop of `check_and_alert`: the rule `names[i]`,
        with the alert it raised, if any. */
    method CheckRule(names: seq<string>, i: nat, ghost last0: map<string, Option<nat>>, ghost active0: map<string, Alert>,
                     ghost history0: seq<Alert>, ghost fired: seq<string>, triggered: seq<Alert>, metrics: Metrics, now: nat)
      returns (ghost fired': seq<string>, raised: seq<Alert>)
      requires i < |names|
      requires Round(names, i, last0, active0, history0, fired, triggered, metrics, now)
      modifies this, rules.Values
      ensures Round(names, i + 1, last0, active0, history0, fired', triggered + raised, metrics, now)
      ensures ruleNames == old(ruleNames) && rules == old(rules) && paths == old(paths)
      ensures forall a :: a in raised ==> fresh(a)
    {
      var rule := rules[names[i]];
      RoundRule(names, i, last0, active0, history0, fired, triggered, metrics, now);
      if rule.Check(metrics, now) {
        var alert := RoundFire(names, i, last0, active0, history0, fired, triggered, metrics, now);
        fired', raised := fired + [names[i]], [alert];
      } else {
        RoundSkip(names, i, last0, active0, history0, fired, triggered, metrics, now);
        fired', raised := fired, [];
        assert triggered + raised == triggered;
      }
    }

    /** `check_and_alert(metrics)` at clock reading `now`: every rule that
        fires, in rule order, raises a new alert that is filed among the
        active alerts and appended to the trimmed history, and the rule's
        last trigger time becomes `now`. */
    method CheckAndAlert(metrics: Metrics, now: nat) returns (triggered: seq<Alert>)
      requires Valid()
      modifies this, rules.Values
      ensures Valid()
      ensures ruleNames == old(ruleNames) && rules == old(rules) && paths == old(paths)
      ensures Checked(old(ruleNames), old(LastTimes(rules)), old(active), old(history), triggered, metrics, now)
      ensures forall a :: a in triggered ==> fresh(a)
    {
      ghost var last0 := old(LastTimes(rules));
      ghost var fired: seq<string> := [];
      var names := ruleNames;
      triggered := [];
      var i := 0;
      RoundStart(metrics, now);
      while i < |names|
        invariant 0 <= i <= |names|
        invariant ruleNames == names == old(ruleNames) && rules == old(rules) && paths == old(paths)
        invariant RoundDone(names, i, last0, old(active), old(history), fired, triggered, metrics, now)
        invariant forall a :: a in triggered ==> fresh(a)
      {
        var raised;
        fired, raised := CheckRule(names, i, last0, old(active), old(history), fired, triggered, metrics, now);
        triggered := triggered + raised;
        i := i + 1;
      }
      RoundComplete(names, last0, old(active), old(history), fired, triggered, metrics, now);
    }

    /** `get_active_alerts(severity)`: the active alerts of that severity
        (all of them without one), keyed by id. */
    function GetActiveAlerts(severity: Option<Severity>): (r: map<string, Alert>)
      reads this
      ensures forall id :: id in r <==> id in active && (severity.None? || active[id].severity == severity.value)
      ensures forall id :: id in r ==> r[id] == active[id]
    {
      map id | id in active && (severity.None? || active[id].severity == severity.value) :: active[id]
    }

    /** Without a severity every active alert is returned, and the
        severities split the active alerts into disjoint parts. */
    lemma ActiveAlertsBySeverity(a: Severity, b: Severity)
      ensures GetActiveAlerts(None) == active
      ensures GetActiveAlerts(Some(a)).Keys <= active.Keys
      ensures a != b ==> GetActiveAlerts(Some(a)).Keys !! GetActiveAlerts(Some(b)).Keys
      ensures forall id :: id in active ==> id in GetActiveAlerts(Some(active[id].severity))
    {
    }

    /** `escalate_alert(alert_id, path_name)` at clock reading `now`. */
    method EscalateAlert(alertId: string, pathName: string, now: nat) returns (ok: bool)
      requires Valid()
      modifies (if alertId in active then {active[alertId]} else {}), (if pathName in paths then {paths[pathName]} else {})
      ensures Valid()
      ensures alertId !in active || pathName !in paths ==> !ok
      ensures alertId !in active && pathName in paths ==> paths[pathName].currentLevel == old(paths[pathName].currentLevel)
      ensures alertId in active && pathName !in paths ==> unchanged(active[alertId])
      ensures alertId in active && pathName in paths ==>
        var p := paths[pathName];
        var a := active[alertId];
        var next := Advance(p.levels, old(p.currentLevel));
        && p.currentLevel == next.1
        && (ok <==> next.0.Some? && |next.0.value| > 0)
        && (ok ==> a.state == Escalated && a.escalatedAt == Some(now) && a.updatedAt == now
                   && a.escalation == Some(Escalation(pathName, next.1, next.0.value)))
        && (!ok ==> a.state == old(a.state) && a.escalatedAt == old(a.escalatedAt)
                    && a.updatedAt == old(a.updatedAt) && a.escalation == old(a.escalation))
        && a.acknowledgedAt == old(a.acknowledgedAt) && a.acknowledgedBy == old(a.acknowledgedBy)
        && a.resolvedAt == old(a.resolvedAt) && a.resolvedBy == old(a.resolvedBy)
    {
      if alertId !in active {
        return false;
      }
      if pathName !in paths {
        return false;
      }
      var alert := active[alertId];
      var path := paths[pathName];
      var level := path.NextLevel();
      if level.None? || |level.value| == 0 {
        return false;
      }
      alert.Escalate(now);
      alert.escalation := Some(Escalation(pathName, path.currentLevel, level.value));
      return true;
    }

    /** `acknowledge_alert(alert_id, by)` at clock reading `now`: the alert
        stays active. */
    method AcknowledgeAlert(alertId: string, who: Option<string>, now: nat) returns (ok: bool)
      requires Valid()
      modifies if alertId in active then {active[alertId]} else {}
      ensures Valid()
      ensures ok <==> alertId in active
      ensures ok ==> var a := active[alertId];
        && a.state == Acknowledged && a.acknowledgedAt == Some(now) && a.acknowledgedBy == who && a.updatedAt == now
        && a.resolvedAt == old(a.resolvedAt) && a.resolvedBy == old(a.resolvedBy)
        && a.escalatedAt == old(a.escalatedAt) && a.escalation == old(a.escalation)
    {
      if alertId !in active {
        return false;
      }
      var alert := active[alertId];
      alert.Acknowledge(who, now);
      return true;
    }

    /** `resolve_alert(alert_id, by)` at clock reading `now`: the alert
        leaves the active alerts and stays in the history. */
    method ResolveAlert(alertId: string, who: Option<string>, now: nat) returns (ok: bool)
      requires Valid()
      modifies this, if alertId in active then {active[alertId]} else {}
      ensures Valid()
      ensures ok <==> alertId in old(active)
      ensures active == old(active) - {alertId}
      ensures ok ==> var a := old(active)[alertId];
        && a.state == Resolved && a.resolvedAt == Some(now) && a.resolvedBy == who && a.updatedAt == now
        && a.acknowledgedAt == old(a.acknowledgedAt) && a.acknowledgedBy == old(a.acknowledgedBy)
        && a.escalatedAt == old(a.escalatedAt) && a.escalation == old(a.escalation)
      ensures ruleNames == old(ruleNames) && rules == old(rules) && paths == old(paths) && history == old(history)
    {
      if alertId !in active {
        return false;
      }
      var alert := active[alertId];
      alert.Resolve(who, now);
      active := active - {alertId};
      return true;
    }

    /** `get_alert_history(limit, severity, start_time, end_time)`.  With no
        filter the list sorted is the history itself, which is left newest
        first. */
    method GetAlertHistory(q: HistoryQuery) returns (r: seq<Alert>)
      requires Valid()
      modifies this
      ensures Valid()
      ensures r == HistoryResult(old(history), q)
      ensures history == if Unfiltered(q) then SortDesc(old(history)) else old(history)
      ensures ruleNames == old(ruleNames) && rules == old(rules) && paths == old(paths) && active == old(active)
    {
      var filtered := Filter(history, q);
      if Unfiltered(q) {
        history := SortDesc(history);
        filtered := history;
      } else {
        filtered := SortDesc(filtered);
      }
      r := PyPrefix(filtered, q.limit);
    }
  }
}
