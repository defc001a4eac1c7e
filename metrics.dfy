/** Shared/Models/MetricModels.swift: the menu-bar metric identifiers, the pacing
    display mode and the error state shown by the app. */
module Metrics {
  import opened Wrappers
  import opened Localized

  datatype MetricID = FiveHour | SevenDay | Sonnet | Pacing {
    /** The enum's String raw value, used when pinned metrics are persisted. */
    function RawValue(): string {
      match this
      case FiveHour => "fiveHour"
      case SevenDay => "sevenDay"
      case Sonnet => "sonnet"
      case Pacing => "pacing"
    }

    function Label(): Text {
      match this
      case FiveHour => Plain("metric.session")
      case SevenDay => Plain("metric.weekly")
      case Sonnet => Plain("metric.sonnet")
      case Pacing => Plain("pacing.label")
    }

    /** The compact label drawn in front of a value in the menu bar. */
    function ShortLabel(): string {
      match this
      case FiveHour => "5h"
      case SevenDay => "7d"
      case Sonnet => "S"
      case Pacing => "P"
    }
  }

  /** `MetricID.allCases`, in declaration order. */
  const AllMetrics: seq<MetricID> := [FiveHour, SevenDay, Sonnet, Pacing]

  /** `MetricID(rawValue:)`. */
  function MetricFromRaw(s: string): (r: Option<MetricID>)
    ensures r.Some? ==> r.value.RawValue() == s
    ensures r.None? ==> forall m: MetricID :: m.RawValue() != s
  {
    if s == "fiveHour" then Some(FiveHour)
    else if s == "sevenDay" then Some(SevenDay)
    else if s == "sonnet" then Some(Sonnet)
    else if s == "pacing" then Some(Pacing)
    else None
  }

  lemma MetricRawRoundTrip(m: MetricID)
    ensures MetricFromRaw(m.RawValue()) == Some(m)
  {
  }

  /** The raw values, and the short labels, of two different metrics differ. */
  lemma MetricNamesDistinct(a: MetricID, b: MetricID)
    requires a != b
    ensures a.RawValue() != b.RawValue()
    ensures a.ShortLabel() != b.ShortLabel()
  {
  }

  lemma AllMetricsEnumerates(m: MetricID)
    ensures m in AllMetrics
    ensures |AllMetrics| == 4
  {
  }

  datatype PacingDisplayMode = Dot | DotDelta {
    function RawValue(): string {
      match this
      case Dot => "dot"
      case DotDelta => "dotDelta"
    }
  }

  /** `PacingDisplayMode(rawValue:)`: only the two raw values name a mode. */
  function PacingDisplayModeFromRaw(s: string): (r: Option<PacingDisplayMode>)
    ensures r.Some? <==> s == "dot" || s == "dotDelta"
    ensures r.Some? ==> r.value.RawValue() == s
  {
    if s == "dot" then Some(Dot) else if s == "dotDelta" then Some(DotDelta) else None
  }

  /** `AppErrorState`; Swift's `.none` is named NoError here. Dafny datatype
      equality is structural, like the synthesized Equatable. */
  datatype AppErrorState = NoError | TokenExpired | KeychainLocked | NetworkError(message: Text)
}
