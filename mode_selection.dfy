/**
 * Which mode record gets applied to the system: the `-d`/`-l` flags of the
 * script's `main`, or the toggle of the main window's button, followed by
 * `change_sys_theme(**values)`. The registry and WMI calls it makes become
 * entries of an effect list.
 */
module ModeSelection {
  import opened Wrappers
  import opened PyValue
  import opened Modes
  import opened ConfigStore
  import opened LegacyConfigStore

  /** What switching a mode does outside the program, in the order it happens. */
  datatype Effect =
    | WindowTheme(mode: Mode)
    | Brightness(level: Value)
    | Wallpaper(path: Value)
    | AppsTheme(theme: Value)
    | SystemTheme(theme: Value)

  /** The keyword arguments `change_sys_theme` cannot do without. */
  predicate Switchable(values: Value)
  {
    values.VMap? && Get(values.entries, "brightness").Some? && Get(values.entries, "wallpaper").Some?
    && Get(values.entries, "os_theme").Some?
  }

  /**
   * `change_sys_theme(**values)`: brightness, wallpaper, then the apps and
   * the system theme from `os_theme`; other keys are swallowed by
   * `**kwargs`. A non-mapping, or a mapping without one of the three
   * parameters, raises TypeError before anything is changed.
   */
  function ThemeEffects(values: Value): (r: Result<seq<Effect>, PyError>)
    ensures r.Ok? <==> Switchable(values)
    ensures r.Err? ==> r.error == TypeError
    ensures r.Ok? ==> |r.value| == 4 && r.value[2].AppsTheme? && r.value[3] == SystemTheme(r.value[2].theme)
  {
    if !values.VMap? then Err(TypeError)
    else
      match (Get(values.entries, "brightness"), Get(values.entries, "wallpaper"), Get(values.entries, "os_theme"))
      case (Some(b), Some(w), Some(o)) => Ok([Brightness(b), Wallpaper(w), AppsTheme(o), SystemTheme(o)])
      case _ => Err(TypeError)
  }

  /** The effects put the apps and the system into mode `m` (`os_theme` 0 dark, 1 light). */
  predicate Switches(effects: seq<Effect>, m: Mode)
  {
    |effects| == 4 && effects[2] == AppsTheme(VInt(Modes.Index(m))) && effects[3] == SystemTheme(VInt(Modes.Index(m)))
  }

  /** A record holding the three parameters, with `os_theme` naming `m`, switches to `m`. */
  lemma RecordSwitches(rec: Value, m: Mode)
    requires Switchable(rec) && Get(rec.entries, "os_theme") == Some(VInt(Modes.Index(m)))
    ensures ThemeEffects(rec).Ok? && Switches(ThemeEffects(rec).value, m)
  {
  }

  /** The argument parser's value for a `store_const` flag. */
  function FlagValue(given: bool, key: string): Value
  {
    if given then VStr(key) else VNull
  }

  /**
   * `mode = args['darkmode'] or args['lightmode']`; a string picks that
   * record, otherwise the record opposite to the current theme. With both
   * flags the dark one wins.
   */
  function ChosenKey(darkFlag: bool, lightFlag: bool, lightOn: bool): (k: string)
    ensures darkFlag ==> k == ModeKey(Dark)
    ensures !darkFlag && lightFlag ==> k == ModeKey(Light)
    ensures !darkFlag && !lightFlag ==> (k == ModeKey(Dark) <==> lightOn)
    ensures k == ModeKey(Dark) || k == ModeKey(Light)
  {
    var mode := Or(FlagValue(darkFlag, "dark_mode"), FlagValue(lightFlag, "light_mode"));
    if mode.VStr? then mode.s
    else if lightOn then "dark_mode" else "light_mode"
  }

  /** The mode whose record `main` applies. */
  function ChosenMode(darkFlag: bool, lightFlag: bool, lightOn: bool): (m: Mode)
    ensures ModeKey(m) == ChosenKey(darkFlag, lightFlag, lightOn)
  {
    if ChosenKey(darkFlag, lightFlag, lightOn) == "dark_mode" then Dark else Light
  }

  /** `values = settings[mode]; change_sys_theme(**values)` at the end of the script's `main`. */
  function MainEffects(settings: Value, darkFlag: bool, lightFlag: bool, lightOn: bool): (r: Result<seq<Effect>, PyError>)
  {
    match PyValue.Index(settings, ChosenKey(darkFlag, lightFlag, lightOn))
    case Err(e) => Err(e)
    case Ok(values) => ThemeEffects(values)
  }

  /** With the top-level keys in order, `settings[key]` reads the mode's position. */
  lemma TopLookup(v: Value, m: Mode)
    requires v.VMap? && Keys(v.entries) == TopKeys
    ensures PyValue.Index(v, ModeKey(m)) == Ok(v.entries[Modes.Index(m)].1)
  {
    assert v.entries[0].0 == "dark_mode" && v.entries[1].0 == "light_mode";
    GetAt(v.entries, 0);
    GetAt(v.entries, 1);
  }

  /** With the six fields of `low_keys`, the wallpaper lookup reads the last one. */
  lemma WallpaperLookup(es: seq<(string, Value)>)
    requires Keys(es) == LowKeys
    ensures Get(es, "wallpaper") == Some(es[5].1)
  {
    assert es[5].0 == "wallpaper";
    assert es[0].0 == "brightness" && es[1].0 == "enable_schedule" && es[2].0 == "os_theme";
    assert es[3].0 == "start_hour" && es[4].0 == "start_minute";
    GetAt(es, 5);
  }

  /** Every record the package's validator accepts switches to the mode it is read for. */
  lemma ValidSwitches(v: Value, m: Mode)
    requires CheckSettings(v)
    ensures PyValue.Index(v, ModeKey(m)).Ok?
    ensures ThemeEffects(PyValue.Index(v, ModeKey(m)).value).Ok?
    ensures Switches(ThemeEffects(PyValue.Index(v, ModeKey(m)).value).value, m)
  {
    TopLookup(v, m);
    var rec := v.entries[Modes.Index(m)].1;
    LowKeysLookup(rec.entries);
    WallpaperLookup(rec.entries);
    RecordSwitches(rec, m);
  }

  /** The default record, as `load_settings` returns it after a repair, switches as well. */
  lemma DefaultSwitches(m: Mode)
    ensures PyValue.Index(DefaultSettings(), ModeKey(m)).Ok?
    ensures ThemeEffects(PyValue.Index(DefaultSettings(), ModeKey(m)).value).Ok?
    ensures Switches(ThemeEffects(PyValue.Index(DefaultSettings(), ModeKey(m)).value).value, m)
  {
    DefaultShaped();
    DefaultShapeSwitches(DefaultSettings(), m);
  }

  lemma DefaultShapeSwitches(v: Value, m: Mode)
    requires v.VMap? && Keys(v.entries) == TopKeys
    requires v.entries[0].1.VMap? && DefaultModeShape(v.entries[0].1.entries, 0)
    requires v.entries[1].1.VMap? && DefaultModeShape(v.entries[1].1.entries, 1)
    ensures PyValue.Index(v, ModeKey(m)).Ok?
    ensures ThemeEffects(PyValue.Index(v, ModeKey(m)).value).Ok?
    ensures Switches(ThemeEffects(PyValue.Index(v, ModeKey(m)).value).value, m)
  {
    TopLookup(v, m);
    var es := v.entries[Modes.Index(m)].1.entries;
    DefaultHeadAt(es);
    GetAt(es, 2);
    RecordSwitches(v.entries[Modes.Index(m)].1, m);
  }

  /**
   * The script's `main` on settings its validator accepted: the chosen
   * record is applied exactly when it holds a wallpaper, which that
   * validator does not check.
   */
  lemma LegacyMainSwitches(settings: Value, darkFlag: bool, lightFlag: bool, lightOn: bool)
    requires LegacyCheckSettings(settings) == Ok(Some(settings))
    ensures var m := ChosenMode(darkFlag, lightFlag, lightOn);
      var rec := settings.entries[Modes.Index(m)].1;
      && (MainEffects(settings, darkFlag, lightFlag, lightOn).Ok? <==> "wallpaper" in Keys(rec.entries))
      && (MainEffects(settings, darkFlag, lightFlag, lightOn).Err? ==>
            MainEffects(settings, darkFlag, lightFlag, lightOn).error == TypeError)
      && (MainEffects(settings, darkFlag, lightFlag, lightOn).Ok? ==>
            Switches(MainEffects(settings, darkFlag, lightFlag, lightOn).value, m))
  {
    var m := ChosenMode(darkFlag, lightFlag, lightOn);
    var rec := settings.entries[Modes.Index(m)].1;
    TopLookup(settings, m);
    assert LegacyCheckMode(rec, Modes.Index(m)) == Ok(true);
    LegacyRecordFields(rec, Modes.Index(m));
  }

  /** What the script's validator guarantees about a record it accepted. */
  lemma LegacyRecordFields(rec: Value, pos: int)
    requires LegacyCheckMode(rec, pos) == Ok(true)
    ensures rec.VMap? && Get(rec.entries, "brightness").Some? && Get(rec.entries, "os_theme") == Some(VInt(pos))
  {
  }

  /**
   * A record the script accepts but cannot apply: the dark record has no
   * `wallpaper`, so `change_sys_theme(**values)` is missing an argument.
   */
  function NoWallpaperSettings(): Value
  {
    VMap([("dark_mode", VMap([("brightness", VInt(0)), ("enable_schedule", VBool(false)), ("os_theme", VInt(0)),
                              ("start_hour", VStr("07")), ("start_minute", VStr("00"))])),
          ("light_mode", EncodeMode(ModeSettings(100, false, 1, VStr("19"), VStr("00"), VStr(""))))])
  }

  lemma LegacyAcceptsUnswitchable()
    ensures LegacyCheckSettings(NoWallpaperSettings()) == Ok(Some(NoWallpaperSettings()))
    ensures MainEffects(NoWallpaperSettings(), true, false, false) == Err(TypeError)
  {
    NoWallpaperShaped();
    UnswitchableShape(NoWallpaperSettings());
  }

  /** A dark record with every field but the wallpaper. */
  predicate NoWallpaperShape(es: seq<(string, Value)>)
  {
    && |es| == 5
    && es[0] == ("brightness", VInt(0)) && es[1] == ("enable_schedule", VBool(false)) && es[2] == ("os_theme", VInt(0))
    && es[3].0 == "start_hour" && es[3].1 != VNull && es[4].0 == "start_minute" && es[4].1 != VNull
  }

  lemma NoWallpaperShaped()
    ensures var v := NoWallpaperSettings();
      && v.VMap? && Keys(v.entries) == TopKeys
      && v.entries[0].1.VMap? && NoWallpaperShape(v.entries[0].1.entries)
      && ModeRecordValid(v.entries[1].1, 1)
  {
    LightValid(ModeSettings(100, false, 1, VStr("19"), VStr("00"), VStr("")));
  }

  lemma LightValid(m: ModeSettings)
    requires ModeValid(m, 1)
    ensures ModeRecordValid(EncodeMode(m), 1)
  {
    EncodeModeValid(m, 1);
  }

  lemma UnswitchableShape(v: Value)
    requires v.VMap? && Keys(v.entries) == TopKeys
    requires v.entries[0].1.VMap? && NoWallpaperShape(v.entries[0].1.entries)
    requires ModeRecordValid(v.entries[1].1, 1)
    ensures LegacyCheckSettings(v) == Ok(Some(v))
    ensures MainEffects(v, true, false, false) == Err(TypeError)
  {
    var d := v.entries[0].1;
    NoWallpaperDarkAccepted(d.entries);
    LegacyModeAccepts(v.entries[1].1, 1);
    assert VMap(v.entries[1].1.entries) == v.entries[1].1;
    LegacyAcceptsModes(v);
    LegacyMainSwitches(v, true, false, false);
    NoWallpaperKey(d.entries);
  }

  lemma NoWallpaperDarkAccepted(es: seq<(string, Value)>)
    requires NoWallpaperShape(es)
    ensures LegacyCheckMode(VMap(es), 0) == Ok(true)
  {
    NoWallpaperKnown(es);
    GetAt(es, 0);
    NoWallpaperLookups(es);
    LegacyModeFields(VMap(es), 0);
  }

  lemma NoWallpaperKnown(es: seq<(string, Value)>)
    requires NoWallpaperShape(es)
    ensures FieldsKnown(es) && NoneFree(es)
  {
    assert es[0].0 == LowKeys[0] && es[1].0 == LowKeys[1] && es[2].0 == LowKeys[2];
    assert es[3].0 == LowKeys[3] && es[4].0 == LowKeys[4];
  }

  lemma NoWallpaperLookups(es: seq<(string, Value)>)
    requires |es| == 5 && es[0].0 == "brightness" && es[1].0 == "enable_schedule" && es[2].0 == "os_theme"
    ensures Get(es, "enable_schedule") == Some(es[1].1) && Get(es, "os_theme") == Some(es[2].1)
  {
    GetAt(es, 1);
    GetAt(es, 2);
  }

  lemma NoWallpaperKey(es: seq<(string, Value)>)
    requires |es| == 5 && es[0].0 == "brightness" && es[1].0 == "enable_schedule" && es[2].0 == "os_theme"
    requires es[3].0 == "start_hour" && es[4].0 == "start_minute"
    ensures "wallpaper" !in Keys(es)
  {
    assert Keys(es) == ["brightness", "enable_schedule", "os_theme", "start_hour", "start_minute"];
  }

  /**
   * The script's `main` with the package's validator in place of its own:
   * every accepted record is applied, and switches to the chosen mode.
   */
  lemma ValidMainSwitches(settings: Value, darkFlag: bool, lightFlag: bool, lightOn: bool)
    requires CheckSettings(settings)
    ensures MainEffects(settings, darkFlag, lightFlag, lightOn).Ok?
    ensures Switches(MainEffects(settings, darkFlag, lightFlag, lightOn).value, ChosenMode(darkFlag, lightFlag, lightOn))
  {
    ValidSwitches(settings, ChosenMode(darkFlag, lightFlag, lightOn));
  }

  /**
   * `MainWindow.change_system_mode` of the package: the window takes the
   * opposite look of the current theme, then `load_settings()[mode]` is
   * applied. The loader always hands back a record that can be applied.
   */
  method ChangeSystemMode(f: SettingsFile, lightOn: bool) returns (effects: seq<Effect>)
    modifies f
    ensures var m := if lightOn then Dark else Light;
      |effects| == 5 && effects[0] == WindowTheme(m) && Switches(effects[1..], m)
    ensures HoldsValid(old(f.stored)) ==> f.stored == old(f.stored) && f.writes == old(f.writes)
    ensures !HoldsValid(old(f.stored)) ==> f.stored == Some(YamlDump.Dump(DefaultSettings()))
                                           && f.writes == old(f.writes) + [YamlDump.Dump(DefaultSettings())]
    ensures var m := if lightOn then Dark else Light;
      var loaded := if HoldsValid(old(f.stored)) then old(f.stored).value else DefaultSettings();
      && PyValue.Index(loaded, ModeKey(m)).Ok?
      && ThemeEffects(PyValue.Index(loaded, ModeKey(m)).value).Ok?
      && effects == [WindowTheme(m)] + ThemeEffects(PyValue.Index(loaded, ModeKey(m)).value).value
  {
    var m := if lightOn then Dark else Light;
    effects := [WindowTheme(m)];
    var settings := LoadSettings(f);
    if settings == DefaultSettings() {
      DefaultSwitches(m);
    } else {
      ValidSwitches(settings, m);
    }
    var values := PyValue.Index(settings, ModeKey(m)).value;
    effects := effects + ThemeEffects(values).value;
  }

  /**
   * How `change_system_mode` of theme_switch_gui.py ends for a stored
   * file: an exception from the script's loader escapes, a repaired file
   * gives the default record, which applies, and an accepted record
   * applies exactly when the chosen mode holds a wallpaper.
   */
  function LegacySwitchOutcome(stored: Option<Value>, m: Mode): Outcome
  {
    if stored.None? then Pass
    else
      match LegacyCheckSettings(stored.value)
      case Err(e) => Raise(e)
      case Ok(None) => Pass
      case Ok(Some(v)) =>
        if "wallpaper" in Keys(v.entries[Modes.Index(m)].1.entries) then Pass else Raise(TypeError)
  }

  /**
   * `MainWindow.change_system_mode` of theme_switch_gui.py, which uses the
   * script's loader. The window changes its look first, so it does so even
   * when the loader or `change_sys_theme` raises afterwards.
   */
  method LegacyChangeSystemMode(f: SettingsFile, lightOn: bool) returns (effects: seq<Effect>, r: Outcome)
    modifies f
    ensures var m := if lightOn then Dark else Light;
      && r == LegacySwitchOutcome(old(f.stored), m)
      && (r.Raise? ==> effects == [WindowTheme(m)])
      && (r.Pass? ==> |effects| == 5 && effects[0] == WindowTheme(m) && Switches(effects[1..], m))
    ensures r.Pass? ==>
      var m, st := if lightOn then Dark else Light, old(f.stored);
      var loaded := if st.Some? && LegacyCheckSettings(st.value).Ok? && LegacyCheckSettings(st.value).value.Some?
                    then LegacyCheckSettings(st.value).value.value else DefaultSettings();
      && PyValue.Index(loaded, ModeKey(m)).Ok?
      && ThemeEffects(PyValue.Index(loaded, ModeKey(m)).value).Ok?
      && effects == [WindowTheme(m)] + ThemeEffects(PyValue.Index(loaded, ModeKey(m)).value).value
  {
    var m := if lightOn then Dark else Light;
    effects := [WindowTheme(m)];
    ghost var st := f.stored;
    ghost var accepted := st.Some? && LegacyCheckSettings(st.value).Ok? && LegacyCheckSettings(st.value).value.Some?;
    var loaded := LegacyLoadSettings(f);
    if loaded.Err? {
      return effects, Raise(loaded.error);
    }
    var settings := loaded.value;
    if accepted {
      LegacyMainSwitches(settings, m == Dark, m == Light, lightOn);
    } else {
      DefaultSwitches(m);
    }
    var values := PyValue.Index(settings, ModeKey(m)).value;
    var e := ThemeEffects(values);
    if e.Err? {
      return effects, Raise(e.error);
    }
    effects := effects + e.value;
    r := Pass;
  }
}
