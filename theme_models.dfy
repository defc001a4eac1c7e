/** Shared/Models/ThemeModels.swift: the colour palettes, the preset table and the
    classification of a percentage into the gauge colours. A colour is kept as the
    hex string `Color(hex:)` / `NSColor(hex:)` is built from. */
module ThemeModels {
  import opened Wrappers
  import opened Pacing

  datatype ThemeColors = ThemeColors(
    gaugeNormal: string,
    gaugeWarning: string,
    gaugeCritical: string,
    pacingChill: string,
    pacingOnTrack: string,
    pacingHot: string,
    widgetBackground: string,
    widgetText: string)

  const DefaultTheme := ThemeColors("#22C55E", "#F97316", "#EF4444", "#32D74B", "#0A84FF", "#FF453A", "#000000", "#FFFFFF")
  const MonochromeTheme := ThemeColors("#8E8E93", "#C7C7CC", "#FFFFFF", "#8E8E93", "#AEAEB2", "#FFFFFF", "#000000", "#FFFFFF")
  const NeonTheme := ThemeColors("#00FF87", "#FFD000", "#FF006E", "#00FF87", "#00D4FF", "#FF006E", "#0A0A0A", "#FFFFFF")
  const PastelTheme := ThemeColors("#86EFAC", "#FDE68A", "#FCA5A5", "#86EFAC", "#93C5FD", "#FCA5A5", "#1A1A2E", "#E2E8F0")

  /** `allPresets` (the localized labels left out): key and palette, in order. */
  const AllPresets: seq<(string, ThemeColors)> :=
    [("default", DefaultTheme), ("monochrome", MonochromeTheme), ("neon", NeonTheme), ("pastel", PastelTheme)]

  /** `allPresets.first { $0.key == key }?.colors`. */
  function FirstPreset(presets: seq<(string, ThemeColors)>, key: string): (r: Option<ThemeColors>)
    ensures r.None? <==> forall i :: 0 <= i < |presets| ==> presets[i].0 != key
    ensures r.Some? ==> (key, r.value) in presets
    ensures r.Some? && presets != [] && presets[0].0 == key ==> r.value == presets[0].1
  {
    if presets == [] then None
    else if presets[0].0 == key then Some(presets[0].1)
    else
      assert forall i :: 1 <= i < |presets| ==> presets[i] == presets[1..][i - 1];
      FirstPreset(presets[1..], key)
  }

  function Preset(key: string): Option<ThemeColors> {
    FirstPreset(AllPresets, key)
  }

  /** The four preset keys name their palettes; any other key names none. */
  lemma PresetTable(key: string)
    ensures key == "default" ==> Preset(key) == Some(DefaultTheme)
    ensures key == "monochrome" ==> Preset(key) == Some(MonochromeTheme)
    ensures key == "neon" ==> Preset(key) == Some(NeonTheme)
    ensures key == "pastel" ==> Preset(key) == Some(PastelTheme)
    ensures Preset(key).Some? <==> key in {"default", "monochrome", "neon", "pastel"}
  {
    var p0 := AllPresets;
    var p1, p2, p3 := p0[1..], p0[2..], p0[3..];
    assert p1[1..] == p2 && p2[1..] == p3 && p3[1..] == [];
    assert FirstPreset(p3, key) == if key == "pastel" then Some(PastelTheme) else None;
    assert FirstPreset(p2, key) == if key == "neon" then Some(NeonTheme) else FirstPreset(p3, key);
    assert FirstPreset(p1, key) == if key == "monochrome" then Some(MonochromeTheme) else FirstPreset(p2, key);
  }

  datatype UsageThresholds = UsageThresholds(warningPercent: int, criticalPercent: int)

  const DefaultThresholds := UsageThresholds(60, 85)

  /** Which of the three gauge colours a percentage takes. */
  datatype GaugeLevel = Normal | Warning | Critical

  /** The classification shared by `gaugeColor` and `gaugeNSColor`: critical
      from the critical threshold on, warning from the warning threshold on. */
  function GaugeLevelOf(pct: real, t: UsageThresholds): (l: GaugeLevel)
    ensures l == Critical <==> pct >= t.criticalPercent as real
    ensures l == Warning <==> t.warningPercent as real <= pct < t.criticalPercent as real
    ensures l == Normal <==> pct < t.warningPercent as real && pct < t.criticalPercent as real
  {
    if pct >= t.criticalPercent as real then Critical
    else if pct >= t.warningPercent as real then Warning
    else Normal
  }

  /** The palette entry for a gauge level. */
  function GaugeHex(c: ThemeColors, l: GaugeLevel): string {
    match l
    case Normal => c.gaugeNormal
    case Warning => c.gaugeWarning
    case Critical => c.gaugeCritical
  }

  /** `gaugeColor(for:thresholds:)` and `gaugeNSColor(for:thresholds:)`. */
  function GaugeColor(c: ThemeColors, pct: real, t: UsageThresholds): (hex: string)
    ensures pct >= t.criticalPercent as real ==> hex == c.gaugeCritical
    ensures t.warningPercent as real <= pct < t.criticalPercent as real ==> hex == c.gaugeWarning
    ensures pct < t.warningPercent as real && pct < t.criticalPercent as real ==> hex == c.gaugeNormal
  {
    GaugeHex(c, GaugeLevelOf(pct, t))
  }

  /** `pacingColor(for:)` and `pacingNSColor(for:)`. */
  function PacingColor(c: ThemeColors, z: PacingZone): (hex: string) {
    match z
    case Chill => c.pacingChill
    case OnTrack => c.pacingOnTrack
    case Hot => c.pacingHot
  }

  /** The gauge level only ever rises as the percentage rises. */
  lemma GaugeLevelMonotone(p: real, q: real, t: UsageThresholds)
    requires p <= q
    ensures GaugeLevelOf(p, t) == Critical ==> GaugeLevelOf(q, t) == Critical
    ensures GaugeLevelOf(p, t) == Warning ==> GaugeLevelOf(q, t) != Normal
  {
  }

  /** With the default 60/85 thresholds: below 60 is normal, 60 up to 85 warning,
      85 and above critical. */
  lemma DefaultThresholdBands(pct: real)
    ensures GaugeLevelOf(pct, DefaultThresholds) ==
      (if pct >= 85.0 then Critical else if pct >= 60.0 then Warning else Normal)
  {
  }
}
