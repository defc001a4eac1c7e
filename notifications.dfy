/** Shared/Services/NotificationService.swift: the per-metric alert level kept in
    UserDefaults under "lastLevel_<metric>", and the edge-triggered alerts sent
    when it changes. Delivered requests are recorded in `sent`. */
module Notifications {
  import opened Wrappers
  import opened Localized
  import opened Pacing
  import opened ThemeModels
  import opened NotificationBody
  import opened UserDefaultsStore

  /** `UsageLevel.from(pct:thresholds:)`. */
  function LevelFrom(pct: int, t: UsageThresholds): (l: UsageLevel)
    ensures l == Red <==> pct >= t.criticalPercent
    ensures l == Orange <==> t.warningPercent <= pct < t.criticalPercent
    ensures l == Green <==> pct < t.warningPercent && pct < t.criticalPercent
  {
    if pct >= t.criticalPercent then Red
    else if pct >= t.warningPercent then Orange
    else Green
  }

  /** The `Comparable` conformance: by raw value. */
  predicate Below(a: UsageLevel, b: UsageLevel) { a.RawValue() < b.RawValue() }

  /** `UsageLevel(rawValue:)`. */
  function LevelFromRaw(raw: int): (r: Option<UsageLevel>)
    ensures r.Some? <==> 0 <= raw <= 2
    ensures r.Some? ==> r.value.RawValue() == raw
  {
    if raw == 0 then Some(Green) else if raw == 1 then Some(Orange) else if raw == 2 then Some(Red) else None
  }

  /** green < orange < red, and the order is total and strict. */
  lemma LevelOrder(a: UsageLevel, b: UsageLevel)
    ensures Below(Green, Orange) && Below(Orange, Red)
    ensures !Below(a, a)
    ensures a != b ==> Below(a, b) != Below(b, a)
    ensures LevelFromRaw(a.RawValue()) == Some(a)
  {
  }

  /** With thresholds in the usual order, a higher percentage never gives a lower level. */
  lemma LevelFromMonotone(p: int, q: int, t: UsageThresholds)
    requires p <= q && t.warningPercent <= t.criticalPercent
    ensures !Below(LevelFrom(q, t), LevelFrom(p, t))
  {
  }

  /** What a level change leads to. */
  datatype Outcome = Unchanged | PersistOnly(level: UsageLevel) | Escalate(level: UsageLevel) | Recover

  /** The decision of `check`: nothing when the level is the stored one; otherwise
      the new level is persisted, with an escalation alert when it is higher and a
      recovery alert when it is back to green. */
  function Transition(previous: UsageLevel, current: UsageLevel): (o: Outcome)
  {
    if current == previous then Unchanged
    else if Below(previous, current) then Escalate(current)
    else if current == Green && Below(Green, previous) then Recover
    else PersistOnly(current)
  }

  /** Each outcome in terms of the two levels, both directions. */
  lemma TransitionCases(previous: UsageLevel, current: UsageLevel)
    ensures Transition(previous, current) == Unchanged <==> current == previous
    ensures Transition(previous, current).Escalate? <==> Below(previous, current)
    ensures Transition(previous, current) == Recover <==> current == Green && previous != Green
    ensures Transition(previous, current).PersistOnly? <==> previous == Red && current == Orange
  {
  }

  datatype MetricSnapshot = MetricSnapshot(pct: int, resetsAt: Option<int>)

  /** A delivered request: identifier "escalation_<metric>" or "recovery_<metric>",
      a title made of the level's emoji, the metric's label and the percentage,
      and a body. */
  datatype Notification =
    | EscalationAlert(metric: string, metricLabel: Text, pct: int, level: UsageLevel, body: Text)
    | RecoveryAlert(metric: string, metricLabel: Text, pct: int, body: Text)

  function LevelKey(metric: string): string { "lastLevel_" + metric }

  /** The stored level read back: a missing key reads as 0, an unknown raw value as green. */
  function StoredLevel(store: map<string, DefaultsValue>, metric: string): (l: UsageLevel)
    ensures LevelKey(metric) !in store ==> l == Green
  {
    LevelFromRaw(IntegerIn(store, LevelKey(metric))).GetOr(Green)
  }

  /** `check(metric:metricLabel:snapshot:metricType:pacingZone:thresholds:)` as a function
      of the stored levels: the new store and the requests sent. */
  function CheckSpec(store: map<string, DefaultsValue>, metric: string, metricLabel: Text, snapshot: MetricSnapshot,
                     metricType: MetricType, zone: Option<PacingZone>, thresholds: UsageThresholds, now: int)
    : (r: (map<string, DefaultsValue>, seq<Notification>))
  {
    var previous := StoredLevel(store, metric);
    var current := LevelFrom(snapshot.pct, thresholds);
    match Transition(previous, current)
    case Unchanged => (store, [])
    case PersistOnly(l) => (store[LevelKey(metric) := IntValue(l.RawValue())], [])
    case Escalate(l) =>
      (store[LevelKey(metric) := IntValue(l.RawValue())],
       if l == Green then []
       else [EscalationAlert(metric, metricLabel, snapshot.pct, l,
               EscalationBody(metricType, l, snapshot.resetsAt, zone, thresholds, now))])
    case Recover =>
      (store[LevelKey(metric) := IntValue(Green.RawValue())],
       [RecoveryAlert(metric, metricLabel, snapshot.pct, RecoveryBody(metricType, snapshot.resetsAt, now))])
  }

  /** A changed level is always persisted and the persisted level is the current
      one; an unchanged level leaves the store alone and sends nothing; at most
      one request is sent; no other key is touched. */
  lemma CheckPersistsEveryChange(store: map<string, DefaultsValue>, metric: string, metricLabel: Text,
                                 snapshot: MetricSnapshot, metricType: MetricType, zone: Option<PacingZone>,
                                 thresholds: UsageThresholds, now: int)
    ensures var (store', sent) := CheckSpec(store, metric, metricLabel, snapshot, metricType, zone, thresholds, now);
      var previous := StoredLevel(store, metric);
      var current := LevelFrom(snapshot.pct, thresholds);
      && (current == previous ==> store' == store && sent == [])
      && (current != previous ==> store' == store[LevelKey(metric) := IntValue(current.RawValue())])
      && StoredLevel(store', metric) == current
      && |sent| <= 1
      && (|sent| == 1 ==> (sent[0].EscalationAlert? <==> Below(previous, current)))
      && (|sent| == 1 && sent[0].RecoveryAlert? ==> current == Green)
      && (Below(previous, current) ==> |sent| == 1)
      && (current == Green && previous != Green ==> |sent| == 1 && sent[0].RecoveryAlert?)
      && (forall k :: k != LevelKey(metric) ==> (k in store' <==> k in store) && (k in store ==> store'[k] == store[k]))
  {
  }

  /** The three metrics checked by `checkThresholds`, in order. */
  function ThresholdsSpec(store: map<string, DefaultsValue>, fiveHour: MetricSnapshot, sevenDay: MetricSnapshot,
                          sonnet: MetricSnapshot, zone: Option<PacingZone>, thresholds: UsageThresholds, now: int)
    : (map<string, DefaultsValue>, seq<Notification>)
  {
    var (s1, n1) := CheckSpec(store, "fiveHour", Plain("metric.session"), fiveHour, Session, zone, thresholds, now);
    var (s2, n2) := CheckSpec(s1, "sevenDay", Plain("metric.weekly"), sevenDay, Weekly, None, thresholds, now);
    var (s3, n3) := CheckSpec(s2, "sonnet", Plain("metric.sonnet"), sonnet, Weekly, None, thresholds, now);
    (s3, n1 + n2 + n3)
  }

  /** The pacing zone reaches the session metric only: changing it changes
      nothing about the weekly and Sonnet checks, nor about what is persisted. */
  lemma ZoneOnlyReachesSession(store: map<string, DefaultsValue>, fiveHour: MetricSnapshot, sevenDay: MetricSnapshot,
                               sonnet: MetricSnapshot, z1: Option<PacingZone>, z2: Option<PacingZone>,
                               thresholds: UsageThresholds, now: int)
    ensures var (sa, na) := ThresholdsSpec(store, fiveHour, sevenDay, sonnet, z1, thresholds, now);
            var (sb, nb) := ThresholdsSpec(store, fiveHour, sevenDay, sonnet, z2, thresholds, now);
            sa == sb && |na| == |nb| &&
            forall i :: 0 <= i < |na| && na[i].metric != "fiveHour" ==> na[i] == nb[i]
  {
    var (s1a, n1a) := CheckSpec(store, "fiveHour", Plain("metric.session"), fiveHour, Session, z1, thresholds, now);
    var (s1b, n1b) := CheckSpec(store, "fiveHour", Plain("metric.session"), fiveHour, Session, z2, thresholds, now);
    CheckZoneOnlyInBody(store, "fiveHour", Plain("metric.session"), fiveHour, Session, z1, z2, thresholds, now);
    var (s2, n2) := CheckSpec(s1a, "sevenDay", Plain("metric.weekly"), sevenDay, Weekly, None, thresholds, now);
    var (s3, n3) := CheckSpec(s2, "sonnet", Plain("metric.sonnet"), sonnet, Weekly, None, thresholds, now);
    var na := n1a + n2 + n3;
    var nb := n1b + n2 + n3;
    forall i | 0 <= i < |na| && na[i].metric != "fiveHour"
      ensures na[i] == nb[i]
    {
      assert i >= |n1a|;
    }
  }

  /** The zone only enters the alert's body: the store, the number of alerts
      and the metric they name do not depend on it. */
  lemma CheckZoneOnlyInBody(store: map<string, DefaultsValue>, metric: string, metricLabel: Text,
                            snapshot: MetricSnapshot, metricType: MetricType, z1: Option<PacingZone>, z2: Option<PacingZone>,
                            thresholds: UsageThresholds, now: int)
    ensures var (sa, na) := CheckSpec(store, metric, metricLabel, snapshot, metricType, z1, thresholds, now);
            var (sb, nb) := CheckSpec(store, metric, metricLabel, snapshot, metricType, z2, thresholds, now);
            sa == sb && |na| == |nb| && forall i :: 0 <= i < |na| ==> na[i].metric == metric
  {
  }

  /** Each metric keeps its own level: the three keys are distinct, so after
      `checkThresholds` each stored level is that metric's current level. */
  lemma ThresholdsStoreEachLevel(store: map<string, DefaultsValue>, fiveHour: MetricSnapshot, sevenDay: MetricSnapshot,
                                 sonnet: MetricSnapshot, zone: Option<PacingZone>, thresholds: UsageThresholds, now: int)
    ensures var (s, _) := ThresholdsSpec(store, fiveHour, sevenDay, sonnet, zone, thresholds, now);
            && StoredLevel(s, "fiveHour") == LevelFrom(fiveHour.pct, thresholds)
            && StoredLevel(s, "sevenDay") == LevelFrom(sevenDay.pct, thresholds)
            && StoredLevel(s, "sonnet") == LevelFrom(sonnet.pct, thresholds)
  {
    var (s1, _) := CheckSpec(store, "fiveHour", Plain("metric.session"), fiveHour, Session, zone, thresholds, now);
    CheckPersistsEveryChange(store, "fiveHour", Plain("metric.session"), fiveHour, Session, zone, thresholds, now);
    var (s2, _) := CheckSpec(s1, "sevenDay", Plain("metric.weekly"), sevenDay, Weekly, None, thresholds, now);
    CheckPersistsEveryChange(s1, "sevenDay", Plain("metric.weekly"), sevenDay, Weekly, None, thresholds, now);
    CheckLeavesOtherMetrics(s1, "sevenDay", "fiveHour", Plain("metric.weekly"), sevenDay, Weekly, None, thresholds, now);
    CheckPersistsEveryChange(s2, "sonnet", Plain("metric.sonnet"), sonnet, Weekly, None, thresholds, now);
    CheckLeavesOtherMetrics(s2, "sonnet", "fiveHour", Plain("metric.sonnet"), sonnet, Weekly, None, thresholds, now);
    CheckLeavesOtherMetrics(s2, "sonnet", "sevenDay", Plain("metric.sonnet"), sonnet, Weekly, None, thresholds, now);
  }

  /** Distinct metrics keep their levels under distinct keys. */
  lemma LevelKeysDistinct(metric: string, other: string)
    requires metric != other
    ensures LevelKey(metric) != LevelKey(other)
  {
    assert LevelKey(metric)[10..] == metric;
    assert LevelKey(other)[10..] == other;
  }

  /** A check of one metric leaves the level stored for every other one. */
  lemma CheckLeavesOtherMetrics(store: map<string, DefaultsValue>, metric: string, other: string, metricLabel: Text,
                                snapshot: MetricSnapshot, metricType: MetricType, zone: Option<PacingZone>,
                                thresholds: UsageThresholds, now: int)
    requires metric != other
    ensures StoredLevel(CheckSpec(store, metric, metricLabel, snapshot, metricType, zone, thresholds, now).0, other)
            == StoredLevel(store, other)
  {
    CheckPersistsEveryChange(store, metric, metricLabel, snapshot, metricType, zone, thresholds, now);
    LevelKeysDistinct(metric, other);
  }

  /** Repeated checks of one metric, as successive refreshes make them. */
  function Replay(store: map<string, DefaultsValue>, metric: string, pcts: seq<int>, thresholds: UsageThresholds)
    : seq<Notification>
    decreases |pcts|
  {
    if pcts == [] then []
    else
      var (s, n) := CheckSpec(store, metric, Plain("metric.session"), MetricSnapshot(pcts[0], None), Session, None, thresholds, 0);
      n + Replay(s, metric, pcts[1..], thresholds)
  }

  /** From a fresh install with 60/85: 10, 10, 65, 65, 90, 40 alert exactly three
      times, orange, red, then recovery. */
  lemma ReplayExample()
    ensures var sent := Replay(map[], "fiveHour", [10, 10, 65, 65, 90, 40], DefaultThresholds);
      && |sent| == 3
      && sent[0].EscalationAlert? && sent[0].level == Orange && sent[0].pct == 65
      && sent[1].EscalationAlert? && sent[1].level == Red && sent[1].pct == 90
      && sent[2].RecoveryAlert? && sent[2].pct == 40
  {
    var rest := [65, 65, 90, 40];
    ReplayFromGreen();
    ReplaySkipsSameLevel(map[], "fiveHour", 10, rest, DefaultThresholds);
    ReplaySkipsSameLevel(map[], "fiveHour", 10, [10] + rest, DefaultThresholds);
    assert [10, 10, 65, 65, 90, 40] == [10] + ([10] + rest);
  }

  /** A check at the level already stored changes nothing and sends nothing. */
  lemma ReplaySkipsSameLevel(store: map<string, DefaultsValue>, metric: string, pct: int, pcts: seq<int>, thresholds: UsageThresholds)
    requires LevelFrom(pct, thresholds) == StoredLevel(store, metric)
    ensures Replay(store, metric, [pct] + pcts, thresholds) == Replay(store, metric, pcts, thresholds)
  {
    assert ([pct] + pcts)[1..] == pcts;
  }

  /** From nothing stored, 65, 65, 90, 40 alert orange once, then red and recovery. */
  lemma ReplayFromGreen()
    ensures Replay(map[], "fiveHour", [65, 65, 90, 40], DefaultThresholds) ==
      [EscalationAlert("fiveHour", Plain("metric.session"), 65, Orange, Key("notif.orange.body", [Num(60)])),
       EscalationAlert("fiveHour", Plain("metric.session"), 90, Red, Plain("notif.red.body")),
       RecoveryAlert("fiveHour", Plain("metric.session"), 40, Plain("notif.green.body"))]
  {
    var m0: map<string, DefaultsValue> := map[];
    var m1 := m0[LevelKey("fiveHour") := IntValue(1)];
    assert StoredLevel(m0, "fiveHour") == Green;
    ReplayFromOrange(m1);
    assert Replay(m0, "fiveHour", [65, 65, 90, 40], DefaultThresholds) ==
      [EscalationAlert("fiveHour", Plain("metric.session"), 65, Orange, Key("notif.orange.body", [Num(60)]))]
      + Replay(m1, "fiveHour", [65, 90, 40], DefaultThresholds);
  }

  /** The second half of the example above: with orange stored, 65, 90, 40
      alert red, then recovery. */
  lemma ReplayFromOrange(m1: map<string, DefaultsValue>)
    requires m1 == map[LevelKey("fiveHour") := IntValue(1)]
    ensures Replay(m1, "fiveHour", [65, 90, 40], DefaultThresholds) ==
      [EscalationAlert("fiveHour", Plain("metric.session"), 90, Red, Plain("notif.red.body")),
       RecoveryAlert("fiveHour", Plain("metric.session"), 40, Plain("notif.green.body"))]
  {
    var t := DefaultThresholds;
    var k := LevelKey("fiveHour");
    var m2 := m1[k := IntValue(2)];
    var m3 := m2[k := IntValue(0)];
    assert StoredLevel(m1, "fiveHour") == Orange;
    assert StoredLevel(m2, "fiveHour") == Red;
    assert Replay(m3, "fiveHour", [], t) == [];
    assert Replay(m2, "fiveHour", [40], t) == [RecoveryAlert("fiveHour", Plain("metric.session"), 40, Plain("notif.green.body"))];
    assert Replay(m1, "fiveHour", [90, 40], t) ==
      [EscalationAlert("fiveHour", Plain("metric.session"), 90, Red, Plain("notif.red.body"))] + Replay(m2, "fiveHour", [40], t);
    assert Replay(m1, "fiveHour", [65, 90, 40], t) == Replay(m1, "fiveHour", [90, 40], t);
  }

  class NotificationService {
    var defaults: UserDefaults
    var sent: seq<Notification>

    constructor(defaults: UserDefaults)
      ensures this.defaults == defaults && sent == []
    {
      this.defaults := defaults;
      sent := [];
    }

    method Check(metric: string, metricLabel: Text, snapshot: MetricSnapshot, metricType: MetricType,
                 zone: Option<PacingZone>, thresholds: UsageThresholds, now: int)
      modifies this, defaults
      ensures defaults == old(defaults)
      ensures var (store', notes) := CheckSpec(old(defaults.store), metric, metricLabel, snapshot, metricType, zone, thresholds, now);
              defaults.store == store' && sent == old(sent) + notes
    {
      var key := LevelKey(metric);
      var previous := StoredLevel(defaults.store, metric);
      var current := LevelFrom(snapshot.pct, thresholds);
      if current == previous {
        return;
      }
      defaults.Set(key, IntValue(current.RawValue()));
      if Below(previous, current) {
        if current != Green {
          var body := EscalationBody(metricType, current, snapshot.resetsAt, zone, thresholds, now);
          sent := sent + [EscalationAlert(metric, metricLabel, snapshot.pct, current, body)];
        }
      } else if current == Green && Below(Green, previous) {
        sent := sent + [RecoveryAlert(metric, metricLabel, snapshot.pct, RecoveryBody(metricType, snapshot.resetsAt, now))];
      }
    }

    /** `checkThresholds(fiveHour:sevenDay:sonnet:pacingZone:thresholds:)`. */
    method CheckThresholds(fiveHour: MetricSnapshot, sevenDay: MetricSnapshot, sonnet: MetricSnapshot,
                           zone: Option<PacingZone>, thresholds: UsageThresholds, now: int)
      modifies this, defaults
      ensures defaults == old(defaults)
      ensures var (store', notes) := ThresholdsSpec(old(defaults.store), fiveHour, sevenDay, sonnet, zone, thresholds, now);
              defaults.store == store' && sent == old(sent) + notes
    {
      Check("fiveHour", Plain("metric.session"), fiveHour, Session, zone, thresholds, now);
      Check("sevenDay", Plain("metric.weekly"), sevenDay, Weekly, None, thresholds, now);
      Check("sonnet", Plain("metric.sonnet"), sonnet, Weekly, None, thresholds, now);
    }
  }
}

/** Shared/UsageNotificationManager.swift: the older alerts, with fixed 60/85
    thresholds and fixed bodies. */
module LegacyNotifications {
  import opened Wrappers
  import opened Localized
  import opened ThemeModels
  import opened NotificationBody
  import opened UserDefaultsStore
  import opened Notifications

  /** `UsageLevel.from(pct:)`. */
  function LegacyLevelFrom(pct: int): (l: UsageLevel)
    ensures l == Red <==> pct >= 85
    ensures l == Orange <==> 60 <= pct < 85
    ensures l == Green <==> pct < 60
  {
    if pct >= 85 then Red else if pct >= 60 then Orange else Green
  }

  /** The fixed classifier is the configurable one at its default thresholds. */
  lemma LegacyIsDefaultThresholds(pct: int)
    ensures LegacyLevelFrom(pct) == LevelFrom(pct, DefaultThresholds)
  {
  }

  function LegacyCheckSpec(store: map<string, DefaultsValue>, metric: string, metricLabel: Text, pct: int)
    : (map<string, DefaultsValue>, seq<Notification>)
  {
    var previous := StoredLevel(store, metric);
    var current := LegacyLevelFrom(pct);
    match Transition(previous, current)
    case Unchanged => (store, [])
    case PersistOnly(l) => (store[LevelKey(metric) := IntValue(l.RawValue())], [])
    case Escalate(l) =>
      (store[LevelKey(metric) := IntValue(l.RawValue())],
       match l
       case Orange => [EscalationAlert(metric, metricLabel, pct, l, Plain("notif.orange.body"))]
       case Red => [EscalationAlert(metric, metricLabel, pct, l, Plain("notif.red.body"))]
       case Green => [])
    case Recover =>
      (store[LevelKey(metric) := IntValue(Green.RawValue())],
       [RecoveryAlert(metric, metricLabel, pct, Plain("notif.green.body"))])
  }

  /** The older check makes the same decisions as the newer one at 60/85 and
      persists the same levels; only the bodies differ. */
  lemma LegacyAgreesWithService(store: map<string, DefaultsValue>, metric: string, metricLabel: Text, pct: int, now: int)
    ensures var (s1, n1) := LegacyCheckSpec(store, metric, metricLabel, pct);
            var (s2, n2) := CheckSpec(store, metric, metricLabel, MetricSnapshot(pct, None), Session, None, DefaultThresholds, now);
            s1 == s2 && |n1| == |n2| &&
            forall i :: 0 <= i < |n1| ==> n1[i].(body := Literal("")) == n2[i].(body := Literal(""))
  {
    LegacyIsDefaultThresholds(pct);
  }

  class UsageNotificationManager {
    var defaults: UserDefaults
    var sent: seq<Notification>

    constructor(defaults: UserDefaults)
      ensures this.defaults == defaults && sent == []
    {
      this.defaults := defaults;
      sent := [];
    }

    method Check(metric: string, metricLabel: Text, pct: int)
      modifies this, defaults
      ensures defaults == old(defaults)
      ensures var (store', notes) := LegacyCheckSpec(old(defaults.store), metric, metricLabel, pct);
              defaults.store == store' && sent == old(sent) + notes
    {
      var previous := StoredLevel(defaults.store, metric);
      var current := LegacyLevelFrom(pct);
      if current == previous {
        return;
      }
      defaults.Set(LevelKey(metric), IntValue(current.RawValue()));
      if Below(previous, current) {
        match current
        case Orange => sent := sent + [EscalationAlert(metric, metricLabel, pct, current, Plain("notif.orange.body"))];
        case Red => sent := sent + [EscalationAlert(metric, metricLabel, pct, current, Plain("notif.red.body"))];
        case Green =>
      } else if current == Green && Below(Green, previous) {
        sent := sent + [RecoveryAlert(metric, metricLabel, pct, Plain("notif.green.body"))];
      }
    }

    /** `checkThresholds(fiveHour:sevenDay:sonnet:)`: the three metrics, each under its own key. */
    method CheckThresholds(fiveHour: int, sevenDay: int, sonnet: int)
      modifies this, defaults
      ensures defaults == old(defaults)
      ensures var (s1, n1) := LegacyCheckSpec(old(defaults.store), "fiveHour", Plain("metric.session"), fiveHour);
              var (s2, n2) := LegacyCheckSpec(s1, "sevenDay", Plain("metric.weekly"), sevenDay);
              var (s3, n3) := LegacyCheckSpec(s2, "sonnet", Plain("metric.sonnet"), sonnet);
              defaults.store == s3 && sent == old(sent) + n1 + n2 + n3
    {
      Check("fiveHour", Plain("metric.session"), fiveHour);
      Check("sevenDay", Plain("metric.weekly"), sevenDay);
      Check("sonnet", Plain("metric.sonnet"), sonnet);
    }
  }
}
