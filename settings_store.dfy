/** Shared/Stores/SettingsStore.swift: menu-bar, pacing, onboarding and proxy
    preferences, read from UserDefaults at start-up and written back by each
    property's `didSet`. */
module SettingsStores {
  import opened Wrappers
  import opened Metrics
  import opened UsageModels
  import opened UserDefaultsStore

  const ShowMenuBarKey := "showMenuBar"
  const PinnedKey := "pinnedMetrics"
  const PacingModeKey := "pacingDisplayMode"
  const OnboardingKey := "hasCompletedOnboarding"
  const ProxyEnabledKey := "proxyEnabled"
  const ProxyHostKey := "proxyHost"
  const ProxyPortKey := "proxyPort"

  const DefaultPinned: set<MetricID> := {FiveHour, SevenDay}

  /** The pinned set read back from a saved list: unknown strings are dropped;
      with no saved list, five-hour and seven-day. */
  function PinnedFrom(saved: Option<seq<string>>): (r: set<MetricID>)
    ensures saved.None? ==> r == DefaultPinned
    ensures saved.Some? ==> forall m: MetricID :: m in r <==> m.RawValue() in saved.value
  {
    match saved
    case None => DefaultPinned
    case Some(items) =>
      var r := set s | s in items && MetricFromRaw(s).Some? :: MetricFromRaw(s).value;
      assert forall m: MetricID :: m.RawValue() in items ==> m in r by {
        forall m: MetricID | m.RawValue() in items ensures m in r {
          MetricRawRoundTrip(m);
        }
      }
      r
  }

  /** `pinnedMetrics.map(\.rawValue)`: the raw values of the set, each once, in
      the set's own (unspecified) order. */
  predicate IsRawList(pinned: set<MetricID>, items: seq<string>) {
    && (forall m: MetricID :: m in pinned <==> m.RawValue() in items)
    && (forall i :: 0 <= i < |items| ==> MetricFromRaw(items[i]).Some?)
    && (forall i, j :: 0 <= i < j < |items| ==> items[i] != items[j])
  }

  /** Whatever order the set is saved in, it reads back as the same set. */
  lemma PinnedRoundTrip(pinned: set<MetricID>, items: seq<string>)
    requires IsRawList(pinned, items)
    ensures PinnedFrom(Some(items)) == pinned
  {
  }

  /** `toggleMetric(_:)`: an absent metric is added; a present one is removed
      unless it is the only one. */
  function Toggle(pinned: set<MetricID>, m: MetricID): (r: set<MetricID>)
  {
    if m in pinned then (if |pinned| > 1 then pinned - {m} else pinned)
    else pinned + {m}
  }

  lemma NonEmptyHasOne(s: set<MetricID>)
    requires s != {}
    ensures |s| >= 1
  {
    var x :| x in s;
    assert s == (s - {x}) + {x};
  }

  /** Toggling adds or removes exactly that metric, and never empties a non-empty set. */
  lemma ToggleCases(pinned: set<MetricID>, m: MetricID)
    ensures m !in pinned ==> Toggle(pinned, m) == pinned + {m}
    ensures m in pinned && |pinned| > 1 ==> Toggle(pinned, m) == pinned - {m}
    ensures m in pinned && |pinned| <= 1 ==> Toggle(pinned, m) == pinned
    ensures forall x :: x != m ==> (x in Toggle(pinned, m) <==> x in pinned)
    ensures pinned != {} ==> Toggle(pinned, m) != {}
  {
    if pinned != {} && m in pinned && |pinned| > 1 {
      var rest := pinned - {m};
      assert |rest| == |pinned| - 1;
      assert rest != {};
      var x :| x in rest;
      assert x in Toggle(pinned, m);
    }
  }

  /** Toggling the same metric twice restores a non-empty set. */
  lemma ToggleTwice(pinned: set<MetricID>, m: MetricID)
    requires pinned != {}
    ensures Toggle(Toggle(pinned, m), m) == pinned
  {
    NonEmptyHasOne(pinned);
    if m !in pinned {
      assert |pinned + {m}| == |pinned| + 1;
      assert (pinned + {m}) - {m} == pinned;
    } else if |pinned| > 1 {
      assert (pinned - {m}) + {m} == pinned;
    }
  }

  /** The seven stored properties. */
  datatype AppSettings = AppSettings(
    showMenuBar: bool,
    pinnedMetrics: set<MetricID>,
    pacingDisplayMode: PacingDisplayMode,
    hasCompletedOnboarding: bool,
    proxyEnabled: bool,
    proxyHost: string,
    proxyPort: int)

  /** `init(notificationService:keychainService:)`. */
  function LoadAppSettings(store: map<string, DefaultsValue>): (s: AppSettings)
    ensures s.proxyPort > 0
    ensures ShowMenuBarKey !in store ==> s.showMenuBar
    ensures PinnedKey !in store ==> s.pinnedMetrics == DefaultPinned
    ensures PacingModeKey !in store ==> s.pacingDisplayMode == DotDelta
    ensures ProxyHostKey !in store ==> s.proxyHost == "127.0.0.1"
    ensures IntegerIn(store, ProxyPortKey) <= 0 ==> s.proxyPort == 1080
    ensures ProxyEnabledKey !in store ==> !s.proxyEnabled
    ensures OnboardingKey !in store ==> !s.hasCompletedOnboarding
  {
    var port := IntegerIn(store, ProxyPortKey);
    AppSettings(
      OptionalBoolIn(store, ShowMenuBarKey).GetOr(true),
      PinnedFrom(StringArrayIn(store, PinnedKey)),
      PacingDisplayModeFromRaw(StringIn(store, PacingModeKey).GetOr("dotDelta")).GetOr(DotDelta),
      BoolIn(store, OnboardingKey),
      BoolIn(store, ProxyEnabledKey),
      StringIn(store, ProxyHostKey).GetOr("127.0.0.1"),
      if port > 0 then port else 1080)
  }

  /** What the `didSet` observers leave in UserDefaults, `items` being the saved pinned list. */
  function PersistAppSettings(store: map<string, DefaultsValue>, s: AppSettings, items: seq<string>): map<string, DefaultsValue> {
    store[ShowMenuBarKey := BoolValue(s.showMenuBar)]
         [PinnedKey := StringArray(items)]
         [PacingModeKey := StringValue(s.pacingDisplayMode.RawValue())]
         [OnboardingKey := BoolValue(s.hasCompletedOnboarding)]
         [ProxyEnabledKey := BoolValue(s.proxyEnabled)]
         [ProxyHostKey := StringValue(s.proxyHost)]
         [ProxyPortKey := IntValue(s.proxyPort)]
  }

  /** Persisted preferences are those the next start reads, when the port is positive. */
  lemma AppSettingsRoundTrip(store: map<string, DefaultsValue>, s: AppSettings, items: seq<string>)
    requires IsRawList(s.pinnedMetrics, items) && s.proxyPort > 0
    ensures LoadAppSettings(PersistAppSettings(store, s, items)) == s
  {
    var st := PersistAppSettings(store, s, items);
    assert StringArrayIn(st, PinnedKey) == Some(items);
    PinnedRoundTrip(s.pinnedMetrics, items);
    assert StringIn(st, PacingModeKey) == Some(s.pacingDisplayMode.RawValue());
  }

  class SettingsStore {
    var showMenuBar: bool
    var pinnedMetrics: set<MetricID>
    var pacingDisplayMode: PacingDisplayMode
    var hasCompletedOnboarding: bool
    var proxyEnabled: bool
    var proxyHost: string
    var proxyPort: int
    const defaults: UserDefaults

    function Settings(): AppSettings
      reads this
    {
      AppSettings(showMenuBar, pinnedMetrics, pacingDisplayMode, hasCompletedOnboarding, proxyEnabled, proxyHost, proxyPort)
    }

    constructor(defaults: UserDefaults)
      ensures this.defaults == defaults
      ensures Settings() == LoadAppSettings(defaults.store)
    {
      this.defaults := defaults;
      var store := defaults.store;
      showMenuBar := OptionalBoolIn(store, ShowMenuBarKey).GetOr(true);
      hasCompletedOnboarding := BoolIn(store, OnboardingKey);
      proxyEnabled := BoolIn(store, ProxyEnabledKey);
      proxyHost := StringIn(store, ProxyHostKey).GetOr("127.0.0.1");
      var port := IntegerIn(store, ProxyPortKey);
      proxyPort := if port > 0 then port else 1080;
      pacingDisplayMode := PacingDisplayModeFromRaw(StringIn(store, PacingModeKey).GetOr("dotDelta")).GetOr(DotDelta);
      pinnedMetrics := PinnedFrom(StringArrayIn(store, PinnedKey));
    }

    /** `proxyConfig`: the three proxy properties. */
    function ProxyConfig(): UsageModels.ProxyConfig
      reads this
    {
      MakeProxyConfig(proxyEnabled, proxyHost, proxyPort)
    }

    /** `savePinnedMetrics()`: the raw values of the set, in the order the set yields them. */
    method SavePinnedMetrics()
      modifies defaults
      ensures PinnedKey in defaults.store && defaults.store[PinnedKey].StringArray?
      ensures defaults.store == old(defaults.store)[PinnedKey := defaults.store[PinnedKey]]
      ensures IsRawList(pinnedMetrics, defaults.store[PinnedKey].items)
    {
      var rest := pinnedMetrics;
      var items: seq<string> := [];
      while rest != {}
        invariant defaults.store == old(defaults.store)
        invariant rest <= pinnedMetrics
        invariant forall m: MetricID :: m in pinnedMetrics ==> (m in rest <==> m.RawValue() !in items)
        invariant forall m: MetricID :: m.RawValue() in items ==> m in pinnedMetrics
        invariant forall i :: 0 <= i < |items| ==> MetricFromRaw(items[i]).Some?
        invariant forall i, j :: 0 <= i < j < |items| ==> items[i] != items[j]
        decreases rest
      {
        var m :| m in rest;
        MetricRawRoundTrip(m);
        forall x: MetricID | x != m ensures x.RawValue() != m.RawValue() {
          MetricNamesDistinct(x, m);
        }
        items := items + [m.RawValue()];
        rest := rest - {m};
      }
      defaults.Set(PinnedKey, StringArray(items));
    }

    /** `toggleMetric(_:)`; the set is saved whenever it changes. */
    method ToggleMetric(m: MetricID)
      modifies this, defaults
      ensures Settings() == old(Settings()).(pinnedMetrics := Toggle(old(pinnedMetrics), m))
      ensures pinnedMetrics == old(pinnedMetrics) ==> defaults.store == old(defaults.store)
      ensures pinnedMetrics != old(pinnedMetrics) ==>
        PinnedKey in defaults.store && defaults.store[PinnedKey].StringArray? &&
        IsRawList(pinnedMetrics, defaults.store[PinnedKey].items) &&
        defaults.store == old(defaults.store)[PinnedKey := defaults.store[PinnedKey]]
    {
      if m in pinnedMetrics {
        if |pinnedMetrics| > 1 {
          pinnedMetrics := pinnedMetrics - {m};
          SavePinnedMetrics();
        }
      } else {
        pinnedMetrics := pinnedMetrics + {m};
        SavePinnedMetrics();
      }
    }

    /** The `pinnedMetrics` setter, as a view assigns it. */
    method SetPinnedMetrics(pinned: set<MetricID>)
      modifies this, defaults
      ensures Settings() == old(Settings()).(pinnedMetrics := pinned)
      ensures PinnedKey in defaults.store && defaults.store[PinnedKey].StringArray?
      ensures defaults.store == old(defaults.store)[PinnedKey := defaults.store[PinnedKey]]
      ensures IsRawList(pinned, defaults.store[PinnedKey].items)
    {
      pinnedMetrics := pinned;
      SavePinnedMetrics();
    }

    method SetShowMenuBar(b: bool)
      modifies this, defaults
      ensures Settings() == old(Settings()).(showMenuBar := b)
      ensures defaults.store == old(defaults.store)[ShowMenuBarKey := BoolValue(b)]
    {
      showMenuBar := b;
      defaults.Set(ShowMenuBarKey, BoolValue(b));
    }

    method SetPacingDisplayMode(mode: PacingDisplayMode)
      modifies this, defaults
      ensures Settings() == old(Settings()).(pacingDisplayMode := mode)
      ensures defaults.store == old(defaults.store)[PacingModeKey := StringValue(mode.RawValue())]
    {
      pacingDisplayMode := mode;
      defaults.Set(PacingModeKey, StringValue(mode.RawValue()));
    }

    method SetHasCompletedOnboarding(b: bool)
      modifies this, defaults
      ensures Settings() == old(Settings()).(hasCompletedOnboarding := b)
      ensures defaults.store == old(defaults.store)[OnboardingKey := BoolValue(b)]
    {
      hasCompletedOnboarding := b;
      defaults.Set(OnboardingKey, BoolValue(b));
    }

    method SetProxyEnabled(b: bool)
      modifies this, defaults
      ensures Settings() == old(Settings()).(proxyEnabled := b)
      ensures defaults.store == old(defaults.store)[ProxyEnabledKey := BoolValue(b)]
    {
      proxyEnabled := b;
      defaults.Set(ProxyEnabledKey, BoolValue(b));
    }

    method SetProxyHost(h: string)
      modifies this, defaults
      ensures Settings() == old(Settings()).(proxyHost := h)
      ensures defaults.store == old(defaults.store)[ProxyHostKey := StringValue(h)]
    {
      proxyHost := h;
      defaults.Set(ProxyHostKey, StringValue(h));
    }

    method SetProxyPort(p: int)
      modifies this, defaults
      ensures Settings() == old(Settings()).(proxyPort := p)
      ensures defaults.store == old(defaults.store)[ProxyPortKey := IntValue(p)]
    {
      proxyPort := p;
      defaults.Set(ProxyPortKey, IntValue(p));
    }
  }
}
