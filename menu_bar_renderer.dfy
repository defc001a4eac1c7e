/** Shared/Helpers/MenuBarRenderer.swift: the menu-bar image. The image is
    modelled as the attributed string drawn into it, a sequence of runs each
    with its text, its font role and its colour; the pixel size taken from
    font metrics is not modelled. */
module MenuBarRendering {
  import opened Wrappers
  import opened Decimal
  import opened PacingModel = Pacing
  import opened Metrics
  import opened ThemeModels

  datatype RenderData = RenderData(
    pinnedMetrics: set<MetricID>,
    fiveHourPct: int,
    sevenDayPct: int,
    sonnetPct: int,
    pacingDelta: int,
    pacingZone: PacingZone,
    pacingDisplayMode: PacingDisplayMode,
    hasConfig: bool,
    hasError: bool,
    themeColors: ThemeColors,
    thresholds: UsageThresholds,
    menuBarMonochrome: bool)

  /** The font each run is drawn with. */
  datatype Role = Placeholder | MetricLabel | Separator | DotGlyph | Delta | Percent

  /** `NSColor.tertiaryLabelColor`, `NSColor.labelColor` or a theme colour. */
  datatype Ink = TertiaryLabel | LabelInk | Hex(hex: string)

  datatype Run = Run(text: string, role: Role, ink: Ink)

  const ImageHeight := 22

  datatype Image = Image(runs: seq<Run>, height: int)

  function PctInk(pct: int, d: RenderData): (k: Ink)
    ensures d.menuBarMonochrome <==> k == LabelInk
  {
    if d.menuBarMonochrome then LabelInk else Hex(GaugeColor(d.themeColors, pct as real, d.thresholds))
  }

  function ZoneInk(z: PacingZone, d: RenderData): (k: Ink)
    ensures d.menuBarMonochrome <==> k == LabelInk
  {
    if d.menuBarMonochrome then LabelInk else Hex(PacingColor(d.themeColors, z))
  }

  /** `ms.filter { pinned.contains($0) }`. */
  function Filter(ms: seq<MetricID>, pinned: set<MetricID>): (r: seq<MetricID>)
    ensures forall m: MetricID :: m in r <==> m in ms && m in pinned
    decreases |ms|
  {
    if |ms| == 0 then []
    else (if ms[0] in pinned then [ms[0]] else []) + Filter(ms[1..], pinned)
  }

  /** Filtering keeps the order of the list filtered. */
  lemma {:induction false} FilterKeepsOrder(ms: seq<MetricID>, pinned: set<MetricID>)
    requires forall i, j :: 0 <= i < j < |ms| ==> Rank(ms[i]) < Rank(ms[j])
    ensures forall i, j :: 0 <= i < j < |Filter(ms, pinned)| ==> Rank(Filter(ms, pinned)[i]) < Rank(Filter(ms, pinned)[j])
    decreases |ms|
  {
    if |ms| > 0 {
      var rest := Filter(ms[1..], pinned);
      FilterKeepsOrder(ms[1..], pinned);
      forall m | m in rest ensures Rank(ms[0]) < Rank(m) {
        var j :| 0 <= j < |ms[1..]| && ms[1..][j] == m;
        assert ms[j + 1] == m;
      }
    }
  }

  /** The pinned metrics in the fixed order five-hour, seven-day, Sonnet, pacing. */
  function Ordered(pinned: set<MetricID>): (ms: seq<MetricID>)
    ensures forall m: MetricID :: m in ms <==> m in pinned
    ensures forall i, j :: 0 <= i < j < |ms| ==> Rank(ms[i]) < Rank(ms[j])
  {
    assert forall i :: 0 <= i < |AllMetrics| ==> Rank(AllMetrics[i]) == i;
    assert forall m: MetricID :: m in AllMetrics by {
      forall m: MetricID ensures m in AllMetrics {
        AllMetricsEnumerates(m);
      }
    }
    FilterKeepsOrder(AllMetrics, pinned);
    Filter(AllMetrics, pinned)
  }

  function Rank(m: MetricID): nat {
    match m
    case FiveHour => 0
    case SevenDay => 1
    case Sonnet => 2
    case Pacing => 3
  }

  function Signed(n: int): string {
    (if n >= 0 then "+" else "") + IntToString(n)
  }

  /** The runs for one metric: the pacing dot (and its signed delta), or the
      short label followed by the percentage in its gauge colour. */
  function MetricRuns(m: MetricID, d: RenderData): (runs: seq<Run>)
    ensures |runs| > 0 && forall k :: 0 <= k < |runs| ==> runs[k].role != Placeholder
    ensures m != Pacing ==> |runs| == 2 && runs[0] == Run(m.ShortLabel() + " ", MetricLabel, TertiaryLabel)
    ensures m != Pacing ==> runs[1].role == Percent && runs[1].text == IntToString(PctOf(m, d)) + "%"
    ensures m == Pacing ==> forall k :: 0 <= k < |runs| ==> runs[k].role != MetricLabel
    ensures m == Pacing ==> runs[0] == Run("●", DotGlyph, ZoneInk(d.pacingZone, d))
    ensures m == Pacing ==> (|runs| == 2 <==> d.pacingDisplayMode == DotDelta)
  {
    if m == Pacing then
      var ink := ZoneInk(d.pacingZone, d);
      match d.pacingDisplayMode
      case Dot => [Run("●", DotGlyph, ink)]
      case DotDelta => [Run("●", DotGlyph, ink), Run(" " + Signed(d.pacingDelta) + "%", Delta, ink)]
    else
      var value := PctOf(m, d);
      [Run(m.ShortLabel() + " ", MetricLabel, TertiaryLabel), Run(IntToString(value) + "%", Percent, PctInk(value, d))]
  }

  /** The percentage shown for a metric other than pacing. */
  function PctOf(m: MetricID, d: RenderData): int {
    if m == FiveHour then d.fiveHourPct else if m == SevenDay then d.sevenDayPct else d.sonnetPct
  }

  /** `part` occurs in `whole` starting at index `k`. */
  predicate AppearsAt(whole: seq<Run>, part: seq<Run>, k: int) {
    0 <= k && k + |part| <= |whole| && whole[k..k + |part|] == part
  }

  const SeparatorRun := Run("  ", Separator, TertiaryLabel)

  /** The runs for a list of metrics, two spaces between neighbours. */
  function Joined(ms: seq<MetricID>, d: RenderData): seq<Run>
    decreases |ms|
  {
    if |ms| == 0 then []
    else Joined(ms[..|ms| - 1], d) + (if |ms| > 1 then [SeparatorRun] else []) + MetricRuns(ms[|ms| - 1], d)
  }

  /** Extending the list by its next element extends the runs. */
  lemma JoinedStep(ms: seq<MetricID>, i: int, d: RenderData)
    requires 0 <= i < |ms|
    ensures Joined(ms[..i + 1], d) == Joined(ms[..i], d) + (if i > 0 then [SeparatorRun] else []) + MetricRuns(ms[i], d)
  {
    assert ms[..i + 1][..i] == ms[..i];
  }

  /** `render(_:)` without its cache: "--" when there is no configuration or
      an error, otherwise the pinned metrics. */
  function RenderSpec(d: RenderData): (img: Image)
    ensures img.height == ImageHeight
  {
    if !d.hasConfig || d.hasError then Image([Run("--", Placeholder, TertiaryLabel)], ImageHeight)
    else Image(Joined(Ordered(d.pinnedMetrics), d), ImageHeight)
  }

  /** The placeholder is drawn exactly when there is no configuration or an error. */
  lemma PlaceholderExactlyWhenUnavailable(d: RenderData)
    ensures !d.hasConfig || d.hasError <==> RenderSpec(d).runs == [Run("--", Placeholder, TertiaryLabel)]
  {
    if d.hasConfig && !d.hasError {
      var runs := RenderSpec(d).runs;
      JoinedShape(Ordered(d.pinnedMetrics), d);
      if |runs| == 1 {
        assert runs[0].role != Placeholder;
      }
    }
  }

  /** No run of a joined list is the placeholder, and a non-empty list yields runs. */
  lemma {:induction false} JoinedShape(ms: seq<MetricID>, d: RenderData)
    ensures forall k :: 0 <= k < |Joined(ms, d)| ==> Joined(ms, d)[k].role != Placeholder
    ensures |ms| > 0 ==> |Joined(ms, d)| > 0
    decreases |ms|
  {
    if |ms| > 0 {
      JoinedShape(ms[..|ms| - 1], d);
    }
  }

  lemma AppearsInLonger(whole: seq<Run>, more: seq<Run>, part: seq<Run>, k: int)
    requires AppearsAt(whole, part, k)
    ensures AppearsAt(whole + more, part, k)
  {
    assert (whole + more)[k..k + |part|] == whole[k..k + |part|];
  }

  lemma AppearsAtEnd(whole: seq<Run>, part: seq<Run>)
    ensures AppearsAt(whole + part, part, |whole|)
  {
    assert (whole + part)[|whole|..|whole| + |part|] == part;
  }

  /** Where the runs of the `i`-th metric of the list start in the output. */
  lemma {:induction false} JoinedPosition(ms: seq<MetricID>, d: RenderData, i: int) returns (k: int)
    requires 0 <= i < |ms|
    ensures AppearsAt(Joined(ms, d), MetricRuns(ms[i], d), k)
    decreases |ms|
  {
    var n := |ms| - 1;
    var sep: seq<Run> := if n > 0 then [SeparatorRun] else [];
    JoinedStep(ms, n, d);
    assert ms[..n + 1] == ms;
    if i == n {
      AppearsAtEnd(Joined(ms[..n], d) + sep, MetricRuns(ms[n], d));
      k := |Joined(ms[..n], d) + sep|;
    } else {
      k := JoinedPosition(ms[..n], d, i);
      assert ms[..n][i] == ms[i];
      AppearsInLonger(Joined(ms[..n], d), sep + MetricRuns(ms[n], d), MetricRuns(ms[i], d), k);
      assert Joined(ms[..n], d) + (sep + MetricRuns(ms[n], d)) == Joined(ms, d);
    }
  }

  /** Every metric of the list is drawn: its runs appear, contiguously, in the output. */
  lemma JoinedShowsEach(ms: seq<MetricID>, d: RenderData, i: int)
    requires 0 <= i < |ms|
    ensures exists k :: AppearsAt(Joined(ms, d), MetricRuns(ms[i], d), k)
  {
    var k := JoinedPosition(ms, d, i);
  }

  /** The position of a pinned metric in the drawing order. */
  lemma OrderedIndex(pinned: set<MetricID>, m: MetricID) returns (i: int)
    requires m in pinned
    ensures 0 <= i < |Ordered(pinned)| && Ordered(pinned)[i] == m
  {
    var ms := Ordered(pinned);
    assert m in ms;
    i :| 0 <= i < |ms| && ms[i] == m;
  }

  /** With a configuration and no error, each pinned metric is drawn. */
  lemma PinnedMetricIsDrawn(d: RenderData, m: MetricID)
    requires d.hasConfig && !d.hasError && m in d.pinnedMetrics
    ensures exists k :: AppearsAt(RenderSpec(d).runs, MetricRuns(m, d), k)
  {
    var i := OrderedIndex(d.pinnedMetrics, m);
    var k := JoinedPosition(Ordered(d.pinnedMetrics), d, i);
    assert AppearsAt(RenderSpec(d).runs, MetricRuns(m, d), k);
  }

  /** The label run of a metric appears only among that metric's own runs. */
  lemma LabelRunIsOwn(n: MetricID, m: MetricID, d: RenderData)
    requires n != m && m != Pacing
    ensures forall k :: 0 <= k < |MetricRuns(n, d)| ==> MetricRuns(n, d)[k] != Run(m.ShortLabel() + " ", MetricLabel, TertiaryLabel)
  {
    if n != Pacing {
      MetricNamesDistinct(n, m);
      var a, b := n.ShortLabel() + " ", m.ShortLabel() + " ";
      assert a[..|a| - 1] == n.ShortLabel() && b[..|b| - 1] == m.ShortLabel();
    }
  }

  /** A metric that is not listed contributes no runs with its label. */
  lemma {:induction false} JoinedOnlyListed(ms: seq<MetricID>, d: RenderData, m: MetricID)
    requires m !in ms && m != Pacing
    ensures forall k :: 0 <= k < |Joined(ms, d)| ==> Joined(ms, d)[k] != Run(m.ShortLabel() + " ", MetricLabel, TertiaryLabel)
    decreases |ms|
  {
    if |ms| > 0 {
      var prefix := Joined(ms[..|ms| - 1], d);
      var sep: seq<Run> := if |ms| > 1 then [SeparatorRun] else [];
      var last := MetricRuns(ms[|ms| - 1], d);
      assert Joined(ms, d) == prefix + sep + last;
      assert ms[|ms| - 1] in ms;
      JoinedOnlyListed(ms[..|ms| - 1], d, m);
      LabelRunIsOwn(ms[|ms| - 1], m, d);
    }
  }

  lemma UnpinnedMetricIsNotDrawn(d: RenderData, m: MetricID)
    requires m !in d.pinnedMetrics && m != Pacing
    ensures forall k :: 0 <= k < |RenderSpec(d).runs| ==> RenderSpec(d).runs[k] != Run(m.ShortLabel() + " ", MetricLabel, TertiaryLabel)
  {
    if d.hasConfig && !d.hasError {
      JoinedOnlyListed(Ordered(d.pinnedMetrics), d, m);
    }
  }

  /** Both metrics of the default pinned set, in order. */
  lemma OrderedDefault()
    ensures Ordered({FiveHour, SevenDay}) == [FiveHour, SevenDay]
  {
    var p := {FiveHour, SevenDay};
    var tail3: seq<MetricID> := [SevenDay, Sonnet, Pacing];
    var tail2: seq<MetricID> := [Sonnet, Pacing];
    var tail1: seq<MetricID> := [Pacing];
    assert AllMetrics[1..] == tail3 && tail3[1..] == tail2 && tail2[1..] == tail1 && tail1[1..] == [];
    assert Filter(tail1, p) == [];
    assert Filter(tail2, p) == [];
    assert Filter(tail3, p) == [SevenDay];
  }

  lemma Numerals()
    ensures IntToString(42) == "42" && IntToString(10) == "10" && Signed(-7) == "-7"
  {
    assert NatToString(4) == "4";
    assert NatToString(1) == "1";
    assert NatToString(7) == "7";
  }

  /** The runs of a metric other than pacing, drawn in monochrome. */
  lemma MonochromeRuns(m: MetricID, d: RenderData, short: string, digits: string)
    requires m != Pacing && d.menuBarMonochrome
    requires m.ShortLabel() == short && IntToString(PctOf(m, d)) == digits
    ensures MetricRuns(m, d) == [Run(short + " ", MetricLabel, TertiaryLabel), Run(digits + "%", Percent, LabelInk)]
  {
  }

  lemma JoinedPair(a: MetricID, b: MetricID, d: RenderData)
    ensures Joined([a, b], d) == MetricRuns(a, d) + [SeparatorRun] + MetricRuns(b, d)
  {
    JoinedStep([a, b], 1, d);
    assert [a, b][..2] == [a, b] && [a, b][..1] == [a];
    JoinedSingle(a, d);
  }

  /** Five-hour and seven-day pinned, in monochrome: "5h 42%  7d 10%", the
      labels in the tertiary colour and the values in the label colour. */
  lemma DefaultPinnedRuns(d: RenderData)
    requires d.pinnedMetrics == {FiveHour, SevenDay} && d.hasConfig && !d.hasError
    requires d.fiveHourPct == 42 && d.sevenDayPct == 10 && d.menuBarMonochrome
    ensures RenderSpec(d).runs == [Run("5h ", MetricLabel, TertiaryLabel), Run("42%", Percent, LabelInk)] + [SeparatorRun]
                                  + [Run("7d ", MetricLabel, TertiaryLabel), Run("10%", Percent, LabelInk)]
  {
    OrderedDefault();
    JoinedPair(FiveHour, SevenDay, d);
    Numerals();
    MonochromeRuns(FiveHour, d, "5h", "42");
    MonochromeRuns(SevenDay, d, "7d", "10");
    assert RenderSpec(d).runs == Joined([FiveHour, SevenDay], d);
    assert "5h" + " " == "5h " && "7d" + " " == "7d " && "42" + "%" == "42%" && "10" + "%" == "10%";
  }

  lemma OrderedPacingOnly()
    ensures Ordered({Pacing}) == [Pacing]
  {
    var p := {Pacing};
    var tail3: seq<MetricID> := [SevenDay, Sonnet, Pacing];
    var tail2: seq<MetricID> := [Sonnet, Pacing];
    var tail1: seq<MetricID> := [Pacing];
    assert AllMetrics[1..] == tail3 && tail3[1..] == tail2 && tail2[1..] == tail1 && tail1[1..] == [];
    assert Filter(tail1, p) == [Pacing];
    assert Filter(tail2, p) == [Pacing];
    assert Filter(tail3, p) == [Pacing];
  }

  lemma JoinedSingle(m: MetricID, d: RenderData)
    ensures Joined([m], d) == MetricRuns(m, d)
  {
    JoinedStep([m], 0, d);
    assert [m][..1] == [m] && [m][..0] == [];
  }

  lemma DeltaRuns(d: RenderData)
    requires d.pacingDisplayMode == DotDelta && d.pacingDelta == -7
    ensures MetricRuns(Pacing, d) == [Run("●", DotGlyph, ZoneInk(d.pacingZone, d)), Run(" -7%", Delta, ZoneInk(d.pacingZone, d))]
  {
    Numerals();
    assert Signed(d.pacingDelta) == "-7";
    assert " " + Signed(d.pacingDelta) + "%" == " -7%";
  }

  /** Pacing alone with the delta shown: the dot, then " -7%", both in the
      zone's colour. */
  lemma PacingDeltaRuns(d: RenderData)
    requires d.pinnedMetrics == {Pacing} && d.hasConfig && !d.hasError
    requires d.pacingDisplayMode == DotDelta && d.pacingDelta == -7
    ensures RenderSpec(d).runs == [Run("●", DotGlyph, ZoneInk(d.pacingZone, d)), Run(" -7%", Delta, ZoneInk(d.pacingZone, d))]
  {
    OrderedPacingOnly();
    JoinedSingle(Pacing, d);
    DeltaRuns(d);
  }

  /** The memoised renderer: the static `cachedImage`/`cachedData` pair. */
  class MenuBarRenderer {
    var cachedImage: Option<Image>
    var cachedData: Option<RenderData>

    /** The cached image, when there is one, is the image of the cached data. */
    ghost predicate Valid()
      reads this
    {
      cachedImage.Some? == cachedData.Some? && (cachedData.Some? ==> cachedImage.value == RenderSpec(cachedData.value))
    }

    constructor()
      ensures Valid() && cachedImage.None? && cachedData.None?
    {
      cachedImage := None;
      cachedData := None;
    }

    /** One iteration's drawing of a metric, appended to `str`. */
    static method AppendMetric(str: seq<Run>, metric: MetricID, d: RenderData) returns (runs: seq<Run>)
      ensures runs == str + MetricRuns(metric, d)
    {
      runs := str;
      if metric == Pacing {
        var ink := ZoneInk(d.pacingZone, d);
        match d.pacingDisplayMode
        case Dot =>
          runs := runs + [Run("●", DotGlyph, ink)];
        case DotDelta =>
          runs := runs + [Run("●", DotGlyph, ink)];
          runs := runs + [Run(" " + Signed(d.pacingDelta) + "%", Delta, ink)];
      } else {
        var value := if metric == FiveHour then d.fiveHourPct else if metric == SevenDay then d.sevenDayPct else d.sonnetPct;
        runs := runs + [Run(metric.ShortLabel() + " ", MetricLabel, TertiaryLabel)];
        runs := runs + [Run(IntToString(value) + "%", Percent, PctInk(value, d))];
      }
    }

    /** The drawing loop of `renderPinnedMetrics(_:)`: each metric appended
        in turn, two spaces before every one but the first. */
    static method AppendAll(ordered: seq<MetricID>, d: RenderData) returns (runs: seq<Run>)
      ensures runs == Joined(ordered, d)
    {
      runs := [];
      var i := 0;
      while i < |ordered|
        invariant 0 <= i <= |ordered|
        invariant runs == Joined(ordered[..i], d)
      {
        if i > 0 {
          runs := runs + [SeparatorRun];
        }
        runs := AppendMetric(runs, ordered[i], d);
        JoinedStep(ordered, i, d);
        i := i + 1;
      }
      assert ordered[..i] == ordered;
    }

    /** `renderPinnedMetrics(_:)`: the pinned metrics in their fixed order. */
    static method RenderPinnedMetrics(d: RenderData) returns (img: Image)
      requires d.hasConfig && !d.hasError
      ensures img == RenderSpec(d)
    {
      var ordered := Ordered(d.pinnedMetrics);
      var runs := AppendAll(ordered, d);
      img := Image(runs, ImageHeight);
    }

    /** `render(_:)`: the cached image when the data is unchanged, otherwise a
        fresh rendering, which becomes the cache. */
    method Render(d: RenderData) returns (img: Image)
      requires Valid()
      modifies this
      ensures Valid()
      ensures img == RenderSpec(d)
      ensures cachedData == Some(d) && cachedImage == Some(img)
    {
      if cachedImage.Some? && cachedData.Some? && cachedData.value == d {
        return cachedImage.value;
      }
      if !d.hasConfig || d.hasError {
        img := Image([Run("--", Placeholder, TertiaryLabel)], ImageHeight);
      } else {
        img := RenderPinnedMetrics(d);
      }
      cachedImage := Some(img);
      cachedData := Some(d);
    }
  }
}
