/** Shared/Stores/ThemeStore.swift: the selected palette, the custom palette, the
    two alert thresholds and the monochrome switch, each persisted in UserDefaults
    when set, and pushed to the shared file on reset. */
module ThemeStores {
  import opened Wrappers
  import opened Json
  import opened Pacing
  import opened ThemeModels
  import opened UserDefaultsStore
  import opened SharedFile

  const PresetKey := "selectedPreset"
  const CustomThemeKey := "customThemeJSON"
  const WarningKey := "warningThreshold"
  const CriticalKey := "criticalThreshold"
  const MonochromeKey := "menuBarMonochrome"

  /** The synthesized `Encodable` conformance of `ThemeColors`: one member per field. */
  function EncodeTheme(t: ThemeColors): (j: Json)
    ensures j.JObject?
  {
    JObject(map[
      "gaugeNormal" := JString(t.gaugeNormal),
      "gaugeWarning" := JString(t.gaugeWarning),
      "gaugeCritical" := JString(t.gaugeCritical),
      "pacingChill" := JString(t.pacingChill),
      "pacingOnTrack" := JString(t.pacingOnTrack),
      "pacingHot" := JString(t.pacingHot),
      "widgetBackground" := JString(t.widgetBackground),
      "widgetText" := JString(t.widgetText)])
  }

  function StringMember(j: Json, key: string): (r: Option<string>)
    ensures r.Some? <==> j.JObject? && key in j.fields && j.fields[key].JString?
  {
    if j.JObject? && key in j.fields && j.fields[key].JString? then Some(j.fields[key].s) else None
  }

  /** The synthesized `Decodable` conformance: every field must be present as a
      string; other members are ignored. */
  function DecodeTheme(j: Json): (r: Option<ThemeColors>)
    ensures r.Some? ==> j.JObject?
  {
    var a := StringMember(j, "gaugeNormal");
    var b := StringMember(j, "gaugeWarning");
    var c := StringMember(j, "gaugeCritical");
    var d := StringMember(j, "pacingChill");
    var e := StringMember(j, "pacingOnTrack");
    var f := StringMember(j, "pacingHot");
    var g := StringMember(j, "widgetBackground");
    var h := StringMember(j, "widgetText");
    if a.Some? && b.Some? && c.Some? && d.Some? && e.Some? && f.Some? && g.Some? && h.Some? then
      Some(ThemeColors(a.value, b.value, c.value, d.value, e.value, f.value, g.value, h.value))
    else None
  }

  /** A saved custom palette decodes to itself. */
  lemma ThemeJsonRoundTrip(t: ThemeColors)
    ensures DecodeTheme(EncodeTheme(t)) == Some(t)
  {
  }

  /** A palette missing one colour does not decode. */
  lemma ThemeJsonNeedsEveryField(t: ThemeColors)
    ensures DecodeTheme(JObject(EncodeTheme(t).fields - {"widgetText"})) == None
  {
    assert "widgetText" !in (EncodeTheme(t).fields - {"widgetText"});
  }

  /** The five stored properties. */
  datatype ThemeSettings = ThemeSettings(
    selectedPreset: string,
    customTheme: ThemeColors,
    warningThreshold: int,
    criticalThreshold: int,
    menuBarMonochrome: bool)

  const DefaultThemeSettings := ThemeSettings("default", DefaultTheme, 60, 85, false)

  /** `init(sharedFileService:)`: what is read back from UserDefaults. */
  function LoadThemeSettings(store: map<string, DefaultsValue>): (s: ThemeSettings)
    ensures PresetKey !in store ==> s.selectedPreset == "default"
    ensures s.warningThreshold > 0 && s.criticalThreshold > 0
    ensures WarningKey !in store ==> s.warningThreshold == 60
    ensures CriticalKey !in store ==> s.criticalThreshold == 85
    ensures CustomThemeKey !in store ==> s.customTheme == DefaultTheme
    ensures MonochromeKey !in store ==> !s.menuBarMonochrome
  {
    var preset := StringIn(store, PresetKey).GetOr("default");
    var w := IntegerIn(store, WarningKey);
    var c := IntegerIn(store, CriticalKey);
    var mono := BoolIn(store, MonochromeKey);
    var custom := if CustomThemeKey in store && store[CustomThemeKey].JsonString? then DecodeTheme(store[CustomThemeKey].json) else None;
    ThemeSettings(preset, custom.GetOr(DefaultTheme), if w > 0 then w else 60, if c > 0 then c else 85, mono)
  }

  /** What the five `didSet` observers leave in UserDefaults. */
  function PersistThemeSettings(store: map<string, DefaultsValue>, s: ThemeSettings): map<string, DefaultsValue> {
    store[PresetKey := StringValue(s.selectedPreset)]
         [CustomThemeKey := JsonString(EncodeTheme(s.customTheme))]
         [WarningKey := IntValue(s.warningThreshold)]
         [CriticalKey := IntValue(s.criticalThreshold)]
         [MonochromeKey := BoolValue(s.menuBarMonochrome)]
  }

  /** Settings persisted by one store are those the next store starts with,
      as long as both thresholds are positive; a threshold of 0 or less comes
      back as its default. */
  lemma ThemeSettingsRoundTrip(store: map<string, DefaultsValue>, s: ThemeSettings)
    ensures var back := LoadThemeSettings(PersistThemeSettings(store, s));
      && back.selectedPreset == s.selectedPreset
      && back.customTheme == s.customTheme
      && back.menuBarMonochrome == s.menuBarMonochrome
      && back.warningThreshold == (if s.warningThreshold > 0 then s.warningThreshold else 60)
      && back.criticalThreshold == (if s.criticalThreshold > 0 then s.criticalThreshold else 85)
  {
    ThemeJsonRoundTrip(s.customTheme);
  }

  /** `current`: the custom palette for "custom", otherwise the named preset, otherwise the default. */
  function Resolve(s: ThemeSettings): (c: ThemeColors)
  {
    if s.selectedPreset == "custom" then s.customTheme else Preset(s.selectedPreset).GetOr(DefaultTheme)
  }

  lemma ResolveCases(s: ThemeSettings)
    ensures s.selectedPreset == "custom" ==> Resolve(s) == s.customTheme
    ensures s.selectedPreset == "neon" ==> Resolve(s) == NeonTheme
    ensures s.selectedPreset == "pastel" ==> Resolve(s) == PastelTheme
    ensures s.selectedPreset == "monochrome" ==> Resolve(s) == MonochromeTheme
    ensures s.selectedPreset !in {"custom", "monochrome", "neon", "pastel"} ==> Resolve(s) == DefaultTheme
    ensures s.selectedPreset != "custom" ==> Resolve(s) == Resolve(s.(customTheme := DefaultTheme))
  {
    PresetTable(s.selectedPreset);
  }

  /** An `NSColor` for the menu bar: the system label colour or a palette colour. */
  datatype MenuBarColor = LabelColor | HexColor(hex: string)

  /** `menuBarNSColor(for:)`. */
  function MenuBarGaugeColor(s: ThemeSettings, pct: int): (c: MenuBarColor)
  {
    if s.menuBarMonochrome then LabelColor
    else HexColor(GaugeColor(Resolve(s), pct as real, UsageThresholds(s.warningThreshold, s.criticalThreshold)))
  }

  /** `menuBarPacingNSColor(for:)`. */
  function MenuBarPacingColor(s: ThemeSettings, zone: PacingZone): (c: MenuBarColor)
  {
    if s.menuBarMonochrome then LabelColor else HexColor(PacingColor(Resolve(s), zone))
  }

  /** Monochrome ignores percentage and zone; otherwise the colour is the
      current palette's colour for the level the thresholds give. */
  lemma MenuBarColorCases(s: ThemeSettings, pct: int, zone: PacingZone)
    ensures s.menuBarMonochrome <==> MenuBarGaugeColor(s, pct) == LabelColor
    ensures s.menuBarMonochrome <==> MenuBarPacingColor(s, zone) == LabelColor
    ensures !s.menuBarMonochrome ==>
      MenuBarGaugeColor(s, pct).hex ==
        GaugeHex(Resolve(s), GaugeLevelOf(pct as real, UsageThresholds(s.warningThreshold, s.criticalThreshold)))
  {
  }

  /** After a reset the default palette and 60/85 are current. */
  lemma DefaultsResolve(pct: int)
    ensures Resolve(DefaultThemeSettings) == DefaultTheme
    ensures MenuBarGaugeColor(DefaultThemeSettings, pct) == HexColor(GaugeColor(DefaultTheme, pct as real, DefaultThresholds))
  {
    PresetTable("default");
  }

  class ThemeStore {
    var selectedPreset: string
    var customTheme: ThemeColors
    var warningThreshold: int
    var criticalThreshold: int
    var menuBarMonochrome: bool
    const defaults: UserDefaults
    const sharedFile: SharedFileService

    function Settings(): ThemeSettings
      reads this
    {
      ThemeSettings(selectedPreset, customTheme, warningThreshold, criticalThreshold, menuBarMonochrome)
    }

    constructor(defaults: UserDefaults, sharedFile: SharedFileService)
      ensures this.defaults == defaults && this.sharedFile == sharedFile
      ensures Settings() == LoadThemeSettings(defaults.store)
    {
      this.defaults := defaults;
      this.sharedFile := sharedFile;
      var store := defaults.store;
      selectedPreset := StringIn(store, PresetKey).GetOr("default");
      var w := IntegerIn(store, WarningKey);
      warningThreshold := if w > 0 then w else 60;
      var c := IntegerIn(store, CriticalKey);
      criticalThreshold := if c > 0 then c else 85;
      menuBarMonochrome := BoolIn(store, MonochromeKey);
      if CustomThemeKey in store && store[CustomThemeKey].JsonString? && DecodeTheme(store[CustomThemeKey].json).Some? {
        customTheme := DecodeTheme(store[CustomThemeKey].json).value;
      } else {
        customTheme := DefaultTheme;
      }
    }

    function Current(): (c: ThemeColors)
      reads this
      ensures c == Resolve(Settings())
    {
      if selectedPreset == "custom" then customTheme else Preset(selectedPreset).GetOr(DefaultTheme)
    }

    function Thresholds(): UsageThresholds
      reads this
    {
      UsageThresholds(warningThreshold, criticalThreshold)
    }

    function MenuBarNSColor(pct: int): (c: MenuBarColor)
      reads this
      ensures c == MenuBarGaugeColor(Settings(), pct)
    {
      if menuBarMonochrome then LabelColor else HexColor(GaugeColor(Current(), pct as real, Thresholds()))
    }

    function MenuBarPacingNSColor(zone: PacingZone): (c: MenuBarColor)
      reads this
      ensures c == MenuBarPacingColor(Settings(), zone)
    {
      if menuBarMonochrome then LabelColor else HexColor(PacingColor(Current(), zone))
    }

    method SetSelectedPreset(p: string)
      modifies this, defaults
      ensures Settings() == old(Settings()).(selectedPreset := p)
      ensures defaults.store == old(defaults.store)[PresetKey := StringValue(p)]
    {
      selectedPreset := p;
      defaults.Set(PresetKey, StringValue(p));
    }

    method SetCustomTheme(t: ThemeColors)
      modifies this, defaults
      ensures Settings() == old(Settings()).(customTheme := t)
      ensures defaults.store == old(defaults.store)[CustomThemeKey := JsonString(EncodeTheme(t))]
    {
      customTheme := t;
      defaults.Set(CustomThemeKey, JsonString(EncodeTheme(t)));
    }

    method SetWarningThreshold(n: int)
      modifies this, defaults
      ensures Settings() == old(Settings()).(warningThreshold := n)
      ensures defaults.store == old(defaults.store)[WarningKey := IntValue(n)]
    {
      warningThreshold := n;
      defaults.Set(WarningKey, IntValue(n));
    }

    method SetCriticalThreshold(n: int)
      modifies this, defaults
      ensures Settings() == old(Settings()).(criticalThreshold := n)
      ensures defaults.store == old(defaults.store)[CriticalKey := IntValue(n)]
    {
      criticalThreshold := n;
      defaults.Set(CriticalKey, IntValue(n));
    }

    method SetMenuBarMonochrome(b: bool)
      modifies this, defaults
      ensures Settings() == old(Settings()).(menuBarMonochrome := b)
      ensures defaults.store == old(defaults.store)[MonochromeKey := BoolValue(b)]
    {
      menuBarMonochrome := b;
      defaults.Set(MonochromeKey, BoolValue(b));
    }

    /** `syncToSharedFile()`: the current palette and thresholds go to the shared file. */
    method SyncToSharedFile()
      modifies sharedFile
      ensures sharedFile.Load() == old(sharedFile.Load()).(theme := Some(Current()), thresholds := Some(Thresholds()))
      ensures sharedFile.disk == old(sharedFile.disk)[NewFile := Record(sharedFile.Load())]
    {
      sharedFile.UpdateTheme(Current(), Thresholds());
    }

    /** `resetToDefaults()`: every property back to its default, each persisted,
        then the defaults pushed to the shared file. */
    method ResetToDefaults()
      modifies this, defaults, sharedFile
      ensures Settings() == DefaultThemeSettings
      ensures defaults.store == PersistThemeSettings(old(defaults.store), DefaultThemeSettings)
      ensures sharedFile.Load() == old(sharedFile.Load()).(theme := Some(DefaultTheme), thresholds := Some(DefaultThresholds))
    {
      SetSelectedPreset("default");
      SetCustomTheme(DefaultTheme);
      SetWarningThreshold(60);
      SetCriticalThreshold(85);
      SetMenuBarMonochrome(false);
      DefaultsResolve(0);
      SyncToSharedFile();
    }
  }
}
