/** The settings page: defaults merged under saved settings, single-key updates, reset,
    import, and the theme class on the document body. */
module NewsSettings {
  import opened Wrappers
  import opened Storage

  /** A JSON value a setting can hold. */
  datatype Value = Str(s: string) | Num(n: int) | Bool(b: bool)

  type Settings = map<string, Value>

  /** The `defaultSettings` of the component. */
  const Defaults: Settings := map[
    "theme" := Str("light"), "language" := Str("en"), "country" := Str("us"),
    "pageSize" := Num(12), "autoRefresh" := Bool(false), "notifications" := Bool(false),
    "compactView" := Bool(false), "showImages" := Bool(true), "showSource" := Bool(true),
    "showAuthor" := Bool(true), "showDate" := Bool(true)]

  const DarkTheme := "dark-theme"
  const LightTheme := "light-theme"

  /** `{...defaultSettings, ...saved}`. */
  function MergeDefaults(saved: Settings): (r: Settings)
    ensures r.Keys == Defaults.Keys + saved.Keys
    ensures forall k :: k in saved ==> r[k] == saved[k]
    ensures forall k :: k in Defaults && k !in saved ==> r[k] == Defaults[k]
  {
    Defaults + saved
  }

  /** `{...settings, [setting]: value}`. */
  function WithSetting(settings: Settings, setting: string, value: Value): (r: Settings)
    ensures r.Keys == settings.Keys + {setting}
    ensures r[setting] == value
    ensures forall k :: k in settings && k != setting ==> r[k] == settings[k]
  {
    settings[setting := value]
  }

  /** Merging again changes nothing: a merged map already has every default key. */
  lemma MergeIdempotent(saved: Settings)
    ensures MergeDefaults(MergeDefaults(saved)) == MergeDefaults(saved)
  {
  }

  /** The body's classes after `applyTheme(theme)`; `theme` is `None` when undefined. */
  function ThemeClasses(classes: set<string>, theme: Option<Value>): (r: set<string>)
    ensures (DarkTheme in r) != (LightTheme in r)
    ensures DarkTheme in r <==> theme == Some(Str("dark"))
    ensures r - {DarkTheme, LightTheme} == classes - {DarkTheme, LightTheme}
  {
    if theme == Some(Str("dark")) then classes + {DarkTheme} - {LightTheme}
    else classes + {LightTheme} - {DarkTheme}
  }

  /** `document.body`, reduced to its class list. */
  class Body {
    var classList: set<string>

    constructor (classList: set<string>)
      ensures this.classList == classList
    {
      this.classList := classList;
    }
  }

  class SettingsComponent {
    var settings: Settings
    /** The `newsSettings` slot. */
    const slot: Slot<Settings>
    const body: Body

    /** The constructor reads `JSON.parse(getItem('newsSettings') || '{}')`. */
    constructor (slot: Slot<Settings>, body: Body)
      ensures this.slot == slot && this.body == body
      ensures settings == slot.Load(map[])
    {
      this.slot := slot;
      this.body := body;
      settings := slot.Load(map[]);
    }

    /** `componentDidMount`: merge the defaults under the saved settings and store the result. */
    method Mount()
      modifies this, slot
      ensures settings == MergeDefaults(old(settings))
      ensures Defaults.Keys <= settings.Keys
      ensures slot.item == Some(settings)
    {
      settings := MergeDefaults(settings);
      slot.SetItem(settings);
    }

    /** `applyTheme(theme)`. */
    method ApplyTheme(theme: Option<Value>)
      modifies body
      ensures body.classList == ThemeClasses(old(body.classList), theme)
    {
      if theme == Some(Str("dark")) {
        body.classList := body.classList + {DarkTheme};
        body.classList := body.classList - {LightTheme};
      } else {
        body.classList := body.classList + {LightTheme};
        body.classList := body.classList - {DarkTheme};
      }
    }

    /** `handleSettingChange(setting, value)`. */
    method HandleSettingChange(setting: string, value: Value)
      modifies this, slot, body
      ensures settings == WithSetting(old(settings), setting, value)
      ensures slot.item == Some(settings)
      ensures setting == "theme" ==> body.classList == ThemeClasses(old(body.classList), Some(value))
      ensures setting != "theme" ==> body.classList == old(body.classList)
    {
      settings := WithSetting(settings, setting, value);
      slot.SetItem(settings);
      if setting == "theme" {
        ApplyTheme(Some(value));
      }
    }

    /** `resetSettings`: defaults in state and storage, light theme. */
    method ResetSettings()
      modifies this, slot, body
      ensures settings == Defaults && slot.item == Some(Defaults)
      ensures body.classList == ThemeClasses(old(body.classList), Some(Str("light")))
      ensures LightTheme in body.classList && DarkTheme !in body.classList
    {
      settings := Defaults;
      slot.SetItem(Defaults);
      ApplyTheme(Some(Str("light")));
    }

    /** The `onload` handler of `importSettings`, given what `JSON.parse` made of the file
        (`None` when it threw, which only raises an alert). A parsed file replaces the settings
        without merging the defaults. */
    method ImportSettings(parsed: Option<Settings>)
      modifies this, slot, body
      ensures parsed.None? ==>
        settings == old(settings) && slot.item == old(slot.item) && body.classList == old(body.classList)
      ensures parsed.Some? ==>
        settings == parsed.value && slot.item == Some(parsed.value)
        && body.classList == ThemeClasses(old(body.classList),
                                          if "theme" in parsed.value then Some(parsed.value["theme"]) else None)
    {
      if parsed.Some? {
        settings := parsed.value;
        slot.SetItem(settings);
        ApplyTheme(if "theme" in settings then Some(settings["theme"]) else None);
      }
    }
  }
}
