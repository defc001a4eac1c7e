/** Shared/Helpers/NotificationBodyFormatter.swift: which localized body an alert
    carries, and the integer countdown it may embed. */
module NotificationBody {
  import opened Wrappers
  import opened Decimal
  import opened Localized
  import opened Pacing
  import opened ThemeModels

  datatype MetricType = Session | Weekly

  /** `UsageLevel` (Shared/Services/NotificationService.swift and
      Shared/UsageNotificationManager.swift declare the same enum). */
  datatype UsageLevel = Green | Orange | Red {
    function RawValue(): int {
      match this
      case Green => 0
      case Orange => 1
      case Red => 2
    }
  }

  /** `formatCountdown(from:to:)`. */
  function FormatCountdown(now: int, target: int): (t: Text)
  {
    var diff := target - now;
    if diff <= 0 then Plain("relative.now")
    else
      var totalMinutes := diff / 60;
      var h := totalMinutes / 60;
      var m := totalMinutes % 60;
      if h >= 24 then Key("duration.days.hours", [Num(h / 24), Num(h % 24)])
      else if h > 0 then Literal(IntToString(h) + "h " + IntToString(m) + "min")
      else Literal(IntToString(m) + "min")
  }

  /** The countdown is "now" once the target is reached; otherwise it names the
      whole days, hours and minutes left, rounded down to the minute, with hours
      under 24 and minutes under 60. */
  lemma FormatCountdownCases(now: int, target: int)
    ensures target <= now ==> FormatCountdown(now, target) == Plain("relative.now")
    ensures var diff := target - now;
      && (diff >= 86400 ==>
            && FormatCountdown(now, target) == Key("duration.days.hours", [Num(diff / 86400), Num((diff / 3600) % 24)])
            && diff / 86400 >= 1 && 0 <= (diff / 3600) % 24 < 24
            && (diff / 86400) * 86400 + ((diff / 3600) % 24) * 3600 <= diff
            && diff < (diff / 86400) * 86400 + ((diff / 3600) % 24) * 3600 + 3600)
      && (3600 <= diff < 86400 ==>
            FormatCountdown(now, target) ==
              Literal(NatToString(diff / 3600) + "h " + NatToString((diff / 60) % 60) + "min"))
      && (0 < diff < 3600 ==> FormatCountdown(now, target) == Literal(NatToString(diff / 60) + "min"))
  {
    var diff := target - now;
    if diff > 0 {
      assert (diff / 60) / 60 == diff / 3600;
      assert (diff / 3600) / 24 == diff / 86400;
    }
  }

  /** `fallbackEscalation(level:thresholds:)`. */
  function FallbackEscalation(level: UsageLevel, thresholds: UsageThresholds): Text {
    match level
    case Orange => Key("notif.orange.body", [Num(thresholds.warningPercent)])
    case Red => Plain("notif.red.body")
    case Green => Literal("")
  }

  /** The body key of an orange session alert, chosen by the pacing zone. */
  function OrangeSessionKey(zone: Option<PacingZone>): string {
    match zone.GetOr(OnTrack)
    case Chill => "notif.orange.body.session.chill"
    case OnTrack => "notif.orange.body.session.ontrack"
    case Hot => "notif.orange.body.session.hot"
  }

  /** `escalationBody(metricType:level:resetsAt:pacingZone:thresholds:now:)`. */
  function EscalationBody(metricType: MetricType, level: UsageLevel, resetsAt: Option<int>,
                          pacingZone: Option<PacingZone>, thresholds: UsageThresholds, now: int): (t: Text)
    ensures resetsAt.None? || resetsAt.value <= now || level == Green ==> t == FallbackEscalation(level, thresholds)
  {
    if resetsAt.None? || resetsAt.value - now <= 0 then FallbackEscalation(level, thresholds)
    else
      var at := resetsAt.value;
      match (level, metricType)
      case (Orange, Session) => Key(OrangeSessionKey(pacingZone), [Nested(FormatCountdown(now, at)), TimeOf(at)])
      case (Orange, Weekly) => Key("notif.orange.body.weekly", [DateTimeOf(at)])
      case (Red, Session) => Key("notif.red.body.session", [Nested(FormatCountdown(now, at)), TimeOf(at)])
      case (Red, Weekly) => Key("notif.red.body.weekly", [DateTimeOf(at)])
      case (Green, _) => FallbackEscalation(level, thresholds)
  }

  /** `recoveryBody(metricType:resetsAt:now:)`. */
  function RecoveryBody(metricType: MetricType, resetsAt: Option<int>, now: int): (t: Text)
    ensures resetsAt.None? || resetsAt.value <= now ==> t == Plain("notif.green.body")
  {
    if resetsAt.None? || resetsAt.value - now <= 0 then Plain("notif.green.body")
    else
      match metricType
      case Session => Key("notif.green.body.session", [TimeOf(resetsAt.value)])
      case Weekly => Key("notif.green.body.weekly", [DateTimeOf(resetsAt.value)])
  }

  /** With a future reset, the body key tells level, metric type and (for an
      orange session alert) the pacing zone apart: no two of the six cases
      share a key, nil pacing reads as on track, and the orange fallback
      carries the warning percentage. */
  lemma EscalationRouting(metricType: MetricType, level: UsageLevel, at: int,
                          zone: Option<PacingZone>, thresholds: UsageThresholds, now: int)
    requires at > now
    ensures var t := EscalationBody(metricType, level, Some(at), zone, thresholds, now);
      && (level == Orange && metricType == Session ==>
            t == Key(OrangeSessionKey(zone), [Nested(FormatCountdown(now, at)), TimeOf(at)]))
      && (level == Orange && metricType == Weekly ==> t == Key("notif.orange.body.weekly", [DateTimeOf(at)]))
      && (level == Red && metricType == Session ==>
            t == Key("notif.red.body.session", [Nested(FormatCountdown(now, at)), TimeOf(at)]))
      && (level == Red && metricType == Weekly ==> t == Key("notif.red.body.weekly", [DateTimeOf(at)]))
      && (level == Green ==> t == Literal(""))
    ensures OrangeSessionKey(None) == OrangeSessionKey(Some(OnTrack))
    ensures OrangeSessionKey(Some(Chill)) != OrangeSessionKey(Some(OnTrack))
    ensures OrangeSessionKey(Some(Hot)) != OrangeSessionKey(Some(OnTrack))
    ensures OrangeSessionKey(Some(Chill)) != OrangeSessionKey(Some(Hot))
    ensures FallbackEscalation(Orange, thresholds) == Key("notif.orange.body", [Num(thresholds.warningPercent)])
  {
  }

  /** A recovery with a future reset names the reset time (session) or date
      and time (weekly); otherwise it is the generic text. */
  lemma RecoveryRouting(metricType: MetricType, at: int, now: int)
    ensures at > now && metricType == Session ==>
      RecoveryBody(metricType, Some(at), now) == Key("notif.green.body.session", [TimeOf(at)])
    ensures at > now && metricType == Weekly ==>
      RecoveryBody(metricType, Some(at), now) == Key("notif.green.body.weekly", [DateTimeOf(at)])
    ensures at <= now ==> RecoveryBody(metricType, Some(at), now) == Plain("notif.green.body")
  {
  }
}
