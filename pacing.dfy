/** Shared/PacingCalculator.swift (and Shared/Models/PacingModels.swift): how far
    the weekly usage is ahead of or behind an even spend over the 7-day window. */
module Pacing {
  import opened Wrappers
  import opened UsageModels

  datatype PacingZone = Chill | OnTrack | Hot {
    function RawValue(): string {
      match this
      case Chill => "chill"
      case OnTrack => "onTrack"
      case Hot => "hot"
    }
  }

  /** `PacingResult` without its randomly chosen message. */
  datatype PacingResult = PacingResult(
    delta: real,
    expectedUsage: real,
    actualUsage: real,
    zone: PacingZone,
    resetDate: Option<int>)

  /** Length of the weekly window, 7 * 24 * 3600 seconds. */
  const WeekSeconds: int := 604800

  function Clamp01(x: real): (r: real)
    ensures 0.0 <= r <= 1.0
    ensures 0.0 <= x <= 1.0 ==> r == x
  {
    if x < 0.0 then 0.0 else if x > 1.0 then 1.0 else x
  }

  /** The zone of a delta: more than 10 points under is chill, more than 10 over
      is hot, anything from -10 to +10 inclusive is on track. */
  function ZoneOf(delta: real): (z: PacingZone)
    ensures z == Chill <==> delta < -10.0
    ensures z == Hot <==> delta > 10.0
    ensures z == OnTrack <==> -10.0 <= delta <= 10.0
  {
    if delta < -10.0 then Chill else if delta > 10.0 then Hot else OnTrack
  }

  /** `PacingCalculator.calculate(from:now:)`. */
  function Calculate(usage: UsageResponse, now: int): (r: Option<PacingResult>)
    ensures r.None? <==> usage.sevenDay.None? || ResetsAtDate(usage.sevenDay.value).None?
    ensures r.Some? ==>
      && r.value.actualUsage == usage.sevenDay.value.utilization
      && r.value.resetDate == ResetsAtDate(usage.sevenDay.value)
      && 0.0 <= r.value.expectedUsage <= 100.0
      && r.value.delta == r.value.actualUsage - r.value.expectedUsage
      && r.value.zone == ZoneOf(r.value.delta)
  {
    match usage.sevenDay
    case None => None
    case Some(bucket) =>
      match ResetsAtDate(bucket)
      case None => None
      case Some(resetsAt) =>
        var startOfPeriod := resetsAt - WeekSeconds;
        var elapsed := (now - startOfPeriod) as real / WeekSeconds as real;
        var expectedUsage := Clamp01(elapsed) * 100.0;
        var delta := bucket.utilization - expectedUsage;
        Some(PacingResult(delta, expectedUsage, bucket.utilization, ZoneOf(delta), Some(resetsAt)))
  }

  /** The expected usage is the share of the window already elapsed: zero
      before the window opens, 100 once it has closed, linear in between. */
  lemma ExpectedUsageFollowsElapsedTime(usage: UsageResponse, now: int)
    requires Calculate(usage, now).Some?
    ensures var resetsAt := ResetsAtDate(usage.sevenDay.value).value;
            var expected := Calculate(usage, now).value.expectedUsage;
            && (now <= resetsAt - WeekSeconds ==> expected == 0.0)
            && (now >= resetsAt ==> expected == 100.0)
            && (resetsAt - WeekSeconds <= now <= resetsAt ==>
                  expected == (now - (resetsAt - WeekSeconds)) as real * 100.0 / WeekSeconds as real)
  {
  }

  /** A hot zone always means ahead of schedule, a chill zone behind it. */
  lemma ZoneSign(usage: UsageResponse, now: int)
    requires Calculate(usage, now).Some?
    ensures Calculate(usage, now).value.zone == Hot ==> Calculate(usage, now).value.delta > 0.0
    ensures Calculate(usage, now).value.zone == Chill ==> Calculate(usage, now).value.delta < 0.0
  {
  }

  /** Halfway through the window: 60 and 40 are on track (the bounds are
      inclusive), 61 is hot and 39 is chill. */
  lemma HalfwayExamples(usage: UsageResponse, resetsAt: int)
    requires usage.sevenDay.Some? && ResetsAtDate(usage.sevenDay.value) == Some(resetsAt)
    requires usage.sevenDay.value.utilization in {60.0, 40.0, 61.0, 39.0}
    ensures var u := usage.sevenDay.value.utilization;
            var r := Calculate(usage, resetsAt - WeekSeconds / 2);
            && r.Some? && r.value.expectedUsage == 50.0
            && r.value.zone == (if u == 61.0 then Hot else if u == 39.0 then Chill else OnTrack)
  {
    var now := resetsAt - WeekSeconds / 2;
    assert (now - (resetsAt - WeekSeconds)) as real / WeekSeconds as real == 0.5;
  }
}
