/** TokenEaterApp/SettingsView.swift: the display tab's handlers that keep the
    two alert thresholds ordered, and the one that mirrors a metric toggle into
    the pinned set without ever emptying it. */
module SettingsViewHandlers {
  import opened Metrics
  import opened UserDefaultsStore
  import opened ThemeStores
  import opened SettingsStores

  function Min(a: int, b: int): int { if a <= b then a else b }
  function Max(a: int, b: int): int { if a >= b then a else b }

  /** The warning slider's `onChange`: the new warning value is stored, and a
      critical threshold at or below it is pushed to five above it, capped at 95.
      Result: (warning, critical). */
  function AfterWarningSlider(warning: int, critical: int, value: int): (r: (int, int))
    ensures r.0 == value
    ensures value < critical ==> r.1 == critical
  {
    (value, if value >= critical then Min(value + 5, 95) else critical)
  }

  /** The critical slider's `onChange`: the new critical value is stored, and a
      warning threshold at or above it is pulled to five below it, floored at 10. */
  function AfterCriticalSlider(warning: int, critical: int, value: int): (r: (int, int))
    ensures r.1 == value
    ensures warning < value ==> r.0 == warning
  {
    (if value <= warning then Max(value - 5, 10) else warning, value)
  }

  /** Within the slider ranges (warning 10...90, critical 15...95), either handler
      leaves warning strictly below critical, whatever the thresholds were before,
      and both thresholds inside their ranges. */
  lemma HandlersKeepThresholdsOrdered(warning: int, critical: int, value: int)
    ensures 10 <= value <= 90 && 15 <= critical <= 95 ==>
      var (w, c) := AfterWarningSlider(warning, critical, value);
      w < c && 10 <= w <= 90 && 15 <= c <= 95
    ensures 15 <= value <= 95 && 10 <= warning <= 90 ==>
      var (w, c) := AfterCriticalSlider(warning, critical, value);
      w < c && 10 <= w <= 90 && 15 <= c <= 95
  {
  }

  /** The slider echo is quiet: when one handler moved the other threshold, the
      other slider's handler then fires with that value and changes nothing. */
  lemma HandlerEchoIsFixedPoint(warning: int, critical: int, value: int)
    ensures 10 <= value <= 90 ==>
      var (w, c) := AfterWarningSlider(warning, critical, value);
      AfterCriticalSlider(w, c, c) == (w, c)
    ensures 15 <= value <= 95 ==>
      var (w, c) := AfterCriticalSlider(warning, critical, value);
      AfterWarningSlider(w, c, w) == (w, c)
  {
  }

  /** `syncMetric(_:on:revert:)`: the new pinned set and whether the toggle was reverted. */
  function SyncMetric(pinned: set<MetricID>, m: MetricID, on: bool): (r: (set<MetricID>, bool))
  {
    if on then (pinned + {m}, false)
    else if |pinned| > 1 then (pinned - {m}, false)
    else (pinned, true)
  }

  /** Turning on pins the metric; turning off unpins it unless it would empty
      the set, in which case the toggle is reverted and the set is unchanged; a
      non-empty set stays non-empty; and a toggle that flips membership is
      `toggleMetric`. */
  lemma SyncMetricCases(pinned: set<MetricID>, m: MetricID, on: bool)
    ensures on ==> m in SyncMetric(pinned, m, on).0 && !SyncMetric(pinned, m, on).1
    ensures !on && |pinned| > 1 ==> m !in SyncMetric(pinned, m, on).0 && !SyncMetric(pinned, m, on).1
    ensures SyncMetric(pinned, m, on).1 <==> !on && |pinned| <= 1
    ensures SyncMetric(pinned, m, on).1 ==> SyncMetric(pinned, m, on).0 == pinned
    ensures pinned != {} ==> SyncMetric(pinned, m, on).0 != {}
    ensures on == (m !in pinned) ==> SyncMetric(pinned, m, on).0 == Toggle(pinned, m)
  {
    ToggleCases(pinned, m);
    if pinned != {} && !on && |pinned| > 1 {
      var rest := pinned - {m};
      assert |rest| >= |pinned| - 1;
      assert rest != {};
    }
  }

  /** A threshold key after a handler: either the handler wrote the threshold's
      new value `v` under it (`didSet` saves every assignment), or the key is as
      it was. */
  ghost predicate KeptOrWritten(before: map<string, DefaultsValue>, after: map<string, DefaultsValue>, key: string, v: int) {
    || (key in after && after[key] == IntValue(v))
    || ((key in after <==> key in before) && (key in before ==> after[key] == before[key]))
  }

  /** The warning slider's handler on the theme store. */
  method OnWarningSliderChange(store: ThemeStore, value: int)
    modifies store, store.defaults
    ensures (store.warningThreshold, store.criticalThreshold) ==
            AfterWarningSlider(old(store.warningThreshold), old(store.criticalThreshold), value)
    ensures store.selectedPreset == old(store.selectedPreset) && store.customTheme == old(store.customTheme)
    ensures store.menuBarMonochrome == old(store.menuBarMonochrome)
    ensures store.defaults.store - {WarningKey, CriticalKey} == old(store.defaults.store) - {WarningKey, CriticalKey}
    ensures store.warningThreshold != old(store.warningThreshold) ==>
      WarningKey in store.defaults.store && store.defaults.store[WarningKey] == IntValue(store.warningThreshold)
    ensures store.criticalThreshold != old(store.criticalThreshold) ==>
      CriticalKey in store.defaults.store && store.defaults.store[CriticalKey] == IntValue(store.criticalThreshold)
    ensures KeptOrWritten(old(store.defaults.store), store.defaults.store, WarningKey, store.warningThreshold)
    ensures KeptOrWritten(old(store.defaults.store), store.defaults.store, CriticalKey, store.criticalThreshold)
    ensures (value <= 90 && store.warningThreshold == old(store.warningThreshold) &&
             store.criticalThreshold == old(store.criticalThreshold)) ==>
            store.defaults.store == old(store.defaults.store)
  {
    if store.warningThreshold != value {
      store.SetWarningThreshold(value);
    }
    if value >= store.criticalThreshold {
      store.SetCriticalThreshold(Min(value + 5, 95));
    }
  }

  /** The critical slider's handler on the theme store. */
  method OnCriticalSliderChange(store: ThemeStore, value: int)
    modifies store, store.defaults
    ensures (store.warningThreshold, store.criticalThreshold) ==
            AfterCriticalSlider(old(store.warningThreshold), old(store.criticalThreshold), value)
    ensures store.selectedPreset == old(store.selectedPreset) && store.customTheme == old(store.customTheme)
    ensures store.menuBarMonochrome == old(store.menuBarMonochrome)
    ensures store.defaults.store - {WarningKey, CriticalKey} == old(store.defaults.store) - {WarningKey, CriticalKey}
    ensures store.warningThreshold != old(store.warningThreshold) ==>
      WarningKey in store.defaults.store && store.defaults.store[WarningKey] == IntValue(store.warningThreshold)
    ensures store.criticalThreshold != old(store.criticalThreshold) ==>
      CriticalKey in store.defaults.store && store.defaults.store[CriticalKey] == IntValue(store.criticalThreshold)
    ensures KeptOrWritten(old(store.defaults.store), store.defaults.store, WarningKey, store.warningThreshold)
    ensures KeptOrWritten(old(store.defaults.store), store.defaults.store, CriticalKey, store.criticalThreshold)
    ensures (value >= 15 && store.warningThreshold == old(store.warningThreshold) &&
             store.criticalThreshold == old(store.criticalThreshold)) ==>
            store.defaults.store == old(store.defaults.store)
  {
    if store.criticalThreshold != value {
      store.SetCriticalThreshold(value);
    }
    if value <= store.warningThreshold {
      store.SetWarningThreshold(Max(value - 5, 10));
    }
  }

  /** `syncMetric` on the settings store; `reverted` stands for calling `revert`. */
  method SyncMetricToggle(settings: SettingsStore, m: MetricID, on: bool) returns (reverted: bool)
    modifies settings, settings.defaults
    ensures (settings.pinnedMetrics, reverted) == SyncMetric(old(settings.pinnedMetrics), m, on)
    ensures settings.Settings() == old(settings.Settings()).(pinnedMetrics := settings.pinnedMetrics)
    ensures reverted ==> settings.defaults.store == old(settings.defaults.store)
    ensures !reverted ==>
      && PinnedKey in settings.defaults.store && settings.defaults.store[PinnedKey].StringArray?
      && IsRawList(settings.pinnedMetrics, settings.defaults.store[PinnedKey].items)
      && settings.defaults.store == old(settings.defaults.store)[PinnedKey := settings.defaults.store[PinnedKey]]
  {
    reverted := false;
    if on {
      settings.SetPinnedMetrics(settings.pinnedMetrics + {m});
    } else if |settings.pinnedMetrics| > 1 {
      settings.SetPinnedMetrics(settings.pinnedMetrics - {m});
    } else {
      reverted := true;
    }
  }
}

/** ClaudeUsageApp/SettingsView.swift: the older settings window keeps one toggle
    per metric and saves the enabled ones as a list in a fixed order. */
module LegacySettingsView {
  import opened Wrappers
  import opened Metrics
  import opened UserDefaultsStore

  const PinnedKey := "pinnedMetrics"

  /** The four toggles, in the order fiveHour, sevenDay, sonnet, pacing. */
  datatype Toggles = Toggles(fiveHour: bool, sevenDay: bool, sonnet: bool, pacing: bool)

  const InitialToggles := Toggles(true, true, false, false)

  function Enabled(t: Toggles, m: MetricID): bool {
    match m
    case FiveHour => t.fiveHour
    case SevenDay => t.sevenDay
    case Sonnet => t.sonnet
    case Pacing => t.pacing
  }

  function If(b: bool, m: MetricID): seq<string> { if b then [m.RawValue()] else [] }

  /** `savePinnedMetrics()`: the list saved and the toggles afterwards. */
  function SavePinned(t: Toggles): (r: (seq<string>, Toggles))
  {
    var items := If(t.fiveHour, FiveHour) + If(t.sevenDay, SevenDay) + If(t.sonnet, Sonnet) + If(t.pacing, Pacing);
    if items == [] then (["fiveHour"], t.(fiveHour := true)) else (items, t)
  }

  /** `loadPinnedMetrics()`: each toggle is membership of its raw value in the
      saved list; with no saved list the toggles stay as they are. */
  function LoadPinned(saved: Option<seq<string>>, t: Toggles): (r: Toggles)
    ensures saved.None? ==> r == t
    ensures saved.Some? ==> forall m: MetricID :: Enabled(r, m) <==> m.RawValue() in saved.value
  {
    match saved
    case None => t
    case Some(items) =>
      Toggles("fiveHour" in items, "sevenDay" in items, "sonnet" in items, "pacing" in items)
  }

  /** The saved list is never empty, has no duplicates and follows the fixed
      order. */
  lemma SavedListShape(t: Toggles)
    ensures var items := SavePinned(t).0;
      && |items| >= 1
      && (forall i, j :: 0 <= i < j < |items| ==> Rank(items[i]) < Rank(items[j]))
      && (forall i, j :: 0 <= i < j < |items| ==> items[i] != items[j])
  {
  }

  /** The saved list holds exactly the enabled metrics (fiveHour alone when
      none was), and the toggles change only when none was enabled. */
  lemma SavedListContents(t: Toggles)
    ensures var (items, t') := SavePinned(t);
      && (forall m: MetricID :: m.RawValue() in items <==> Enabled(t', m))
      && (t' != t <==> t == Toggles(false, false, false, false))
      && t' == t.(fiveHour := t.fiveHour || t == Toggles(false, false, false, false))
  {
    forall m: MetricID
      ensures m.RawValue() in SavePinned(t).0 <==> Enabled(SavePinned(t).1, m)
    {
      SavedHoldsEnabled(t, m);
    }
  }

  /** One metric at a time: its raw value is saved exactly when its toggle is
      on after saving. */
  lemma SavedHoldsEnabled(t: Toggles, m: MetricID)
    ensures m.RawValue() in SavePinned(t).0 <==> Enabled(SavePinned(t).1, m)
  {
    var items := If(t.fiveHour, FiveHour) + If(t.sevenDay, SevenDay) + If(t.sonnet, Sonnet) + If(t.pacing, Pacing);
    assert m.RawValue() in items <==> Enabled(t, m);
  }

  /** The position of a raw value in the fixed order. */
  function Rank(s: string): int {
    if s == "fiveHour" then 0 else if s == "sevenDay" then 1 else if s == "sonnet" then 2 else if s == "pacing" then 3 else 4
  }

  /** What was saved loads back as the toggles left after saving. */
  lemma SaveLoadRoundTrip(t: Toggles, u: Toggles)
    ensures LoadPinned(Some(SavePinned(t).0), u) == SavePinned(t).1
  {
  }

  class PinnedMetricToggles {
    var toggles: Toggles
    const defaults: UserDefaults
    /** How many `displaySettingsDidChange` notifications the view has posted. */
    var displayChangesPosted: nat

    constructor(defaults: UserDefaults)
      ensures this.defaults == defaults && toggles == InitialToggles && displayChangesPosted == 0
    {
      this.defaults := defaults;
      toggles := InitialToggles;
      displayChangesPosted := 0;
    }

    method LoadPinnedMetrics()
      modifies this
      ensures toggles == LoadPinned(StringArrayIn(defaults.store, PinnedKey), old(toggles))
    {
      var saved := StringArrayIn(defaults.store, PinnedKey);
      if saved.Some? {
        var items := saved.value;
        toggles := Toggles("fiveHour" in items, "sevenDay" in items, "sonnet" in items, "pacing" in items);
      }
    }

    method SavePinnedMetrics()
      modifies this, defaults
      ensures defaults.store == old(defaults.store)[PinnedKey := StringArray(SavePinned(old(toggles)).0)]
      ensures toggles == SavePinned(old(toggles)).1
      ensures displayChangesPosted == old(displayChangesPosted) + 1
    {
      var t := toggles;
      var metrics: seq<string> := [];
      if toggles.fiveHour { metrics := metrics + [FiveHour.RawValue()]; }
      assert metrics == If(t.fiveHour, FiveHour);
      if toggles.sevenDay { metrics := metrics + [SevenDay.RawValue()]; }
      assert metrics == If(t.fiveHour, FiveHour) + If(t.sevenDay, SevenDay);
      if toggles.sonnet { metrics := metrics + [Sonnet.RawValue()]; }
      assert metrics == If(t.fiveHour, FiveHour) + If(t.sevenDay, SevenDay) + If(t.sonnet, Sonnet);
      if toggles.pacing { metrics := metrics + [Pacing.RawValue()]; }
      assert metrics == If(t.fiveHour, FiveHour) + If(t.sevenDay, SevenDay) + If(t.sonnet, Sonnet) + If(t.pacing, Pacing);
      if metrics == [] {
        metrics := metrics + [FiveHour.RawValue()];
        toggles := toggles.(fiveHour := true);
      }
      assert metrics == SavePinned(t).0;
      defaults.Set(PinnedKey, StringArray(metrics));
      displayChangesPosted := displayChangesPosted + 1;
    }

    /** The `pacingDisplayMode` change handler: it only announces the change
        (the mode itself is stored by `@AppStorage`). */
    method OnPacingDisplayModeChange()
      modifies this
      ensures displayChangesPosted == old(displayChangesPosted) + 1 && toggles == old(toggles)
    {
      displayChangesPosted := displayChangesPosted + 1;
    }
  }
}
