/**
 * The two wallpaper warnings of the package front end (themeswitch/gui.py):
 * the start-up check that both modes have a wallpaper, which opens the
 * settings window on the tab that needs one, and the resolution check run
 * on an image picked for a tab. The message boxes are modelled by the
 * warning they show; the settings file by the document it holds, if any.
 */
module WallpaperChecks {
  import opened Wrappers
  import opened PyValue
  import opened Modes
  import opened YamlDump
  import ConfigStore
  import SettingsForm

  /** Which wallpapers the start-up warning says are missing. */
  datatype Missing = BothMissing | DarkMissing | LightMissing

  /** The start-up warning, and the tab of the settings window it opens. */
  datatype Warning = Warning(missing: Missing, tab: Mode)

  /** `settings[mode]['wallpaper'] or ''` compared with `''`: no usable path. */
  predicate Unset(wp: Value)
  {
    Or(wp, VStr("")) == VStr("")
  }

  /** A path is unset exactly when it is falsy. */
  lemma {:induction false} UnsetFalsy(wp: Value)
    ensures Unset(wp) <==> !Truthy(wp)
  {
    if Truthy(wp) {
      assert wp != VStr("");
    }
  }

  /**
   * `check_wallpaper`: read settings.yaml, look up both wallpapers (dark
   * first), and warn about the missing ones; with only the light one
   * missing the light tab opens, otherwise the dark tab.
   */
  function CheckWallpaper(stored: Option<Value>): (r: Result<Option<Warning>, PyError>)
    ensures stored.None? ==> r == Err(FileNotFoundError)
    ensures stored.Some? && SettingsForm.Field(stored.value, Dark, "wallpaper").Err? ==>
              r == Err(SettingsForm.Field(stored.value, Dark, "wallpaper").error)
    ensures stored.Some? && SettingsForm.Field(stored.value, Dark, "wallpaper").Ok?
            && SettingsForm.Field(stored.value, Light, "wallpaper").Err? ==>
              r == Err(SettingsForm.Field(stored.value, Light, "wallpaper").error)
    ensures r.Ok? <==> stored.Some? && SettingsForm.Field(stored.value, Dark, "wallpaper").Ok?
                       && SettingsForm.Field(stored.value, Light, "wallpaper").Ok?
    ensures r.Ok? ==>
              var dark := SettingsForm.Field(stored.value, Dark, "wallpaper").value;
              var light := SettingsForm.Field(stored.value, Light, "wallpaper").value;
              && (r.value.None? <==> Truthy(dark) && Truthy(light))
              && (r.value.Some? ==> (r.value.value.tab == Dark <==> !Truthy(dark)))
              && (r.value.Some? ==> (r.value.value.missing == BothMissing <==> !Truthy(dark) && !Truthy(light)))
              && (r.value.Some? ==> (r.value.value.missing == LightMissing <==> Truthy(dark)))
  {
    if stored.None? then Err(FileNotFoundError)
    else
      match SettingsForm.Field(stored.value, Dark, "wallpaper")
      case Err(e) => Err(e)
      case Ok(dark) =>
        match SettingsForm.Field(stored.value, Light, "wallpaper")
        case Err(e) => Err(e)
        case Ok(light) =>
          UnsetFalsy(dark);
          UnsetFalsy(light);
          if Unset(dark) && Unset(light) then Ok(Some(Warning(BothMissing, Dark)))
          else if Unset(dark) then Ok(Some(Warning(DarkMissing, Dark)))
          else if Unset(light) then Ok(Some(Warning(LightMissing, Light)))
          else Ok(None)
  }

  /** On a fresh install the file holds the defaults, so both wallpapers are reported missing and the dark tab opens. */
  lemma {:induction false} FreshInstallWarns(v: Value)
    requires v == ConfigStore.Encode(ConfigStore.DefaultConfig())
    ensures CheckWallpaper(Some(v)) == Ok(Some(Warning(BothMissing, Dark)))
  {
    EncodedWallpaper(ConfigStore.DefaultConfig(), Dark);
    EncodedWallpaper(ConfigStore.DefaultConfig(), Light);
  }

  /** Dumping a value keeps its truthiness: lists and mappings keep their length. */
  lemma {:induction false} DumpTruthy(v: Value)
    ensures Truthy(Dump(v)) <==> Truthy(v)
  {
    match v
    case VList(xs) =>
      assert |Dump(v).items| == |xs|;
    case VMap(es) =>
      assert |Dump(v).entries| == |es|;
    case _ =>
  }

  /** The wallpaper of a typed record, as `settings[mode]['wallpaper']` finds it. */
  lemma {:induction false} EncodedWallpaper(c: ConfigStore.Config, m: Mode)
    ensures SettingsForm.Field(ConfigStore.Encode(c), m, "wallpaper")
            == Ok(if m == Dark then c.dark.wallpaper else c.light.wallpaper)
  {
    var md := if m == Dark then c.dark else c.light;
    EncodedRecord(c, m);
    SettingsForm.EncodedLookups(md);
    assert PyValue.Index(ConfigStore.EncodeMode(md), "wallpaper") == Ok(md.wallpaper);
  }

  /** `settings[mode]` of a typed record's mapping. */
  lemma {:induction false} EncodedRecord(c: ConfigStore.Config, m: Mode)
    ensures PyValue.Index(ConfigStore.Encode(c), ModeKey(m)) == Ok(ConfigStore.EncodeMode(if m == Dark then c.dark else c.light))
  {
    var es := ConfigStore.Encode(c).entries;
    assert es[0].0 != es[1].0 by { assert es[0].0[0] != es[1].0[0]; }
    if m == Dark {
      GetAt(es, 0);
    } else {
      GetAt(es, 1);
    }
  }

  /**
   * After `save_settings` on a valid record, the next start-up check is
   * silent exactly when every tab either was given a path or already had a
   * wallpaper: an empty path field never erases a stored wallpaper.
   */
  lemma {:induction false} SavedWallpapersSilence(c: ConfigStore.Config, forms: seq<SettingsForm.Form>)
    requires |forms| == 2 && SettingsForm.TkForm(forms[0]) && SettingsForm.TkForm(forms[1])
    ensures CheckWallpaper(SettingsForm.SaveEffect(Some(ConfigStore.Encode(c)), forms).stored).Ok?
    ensures var e := SettingsForm.SaveEffect(Some(ConfigStore.Encode(c)), forms);
      CheckWallpaper(e.stored).value.None? <==>
        (Truthy(forms[0].wallpaper) || Truthy(c.dark.wallpaper)) && (Truthy(forms[1].wallpaper) || Truthy(c.light.wallpaper))
  {
    SettingsForm.SaveEncoded(c, forms);
    var saved := SettingsForm.SavedConfig(c, forms);
    ConfigStore.DumpEncoded(saved);
    var reloaded := ConfigStore.Config(ConfigStore.DumpedMode(saved.dark), ConfigStore.DumpedMode(saved.light));
    EncodedWallpaper(reloaded, Dark);
    EncodedWallpaper(reloaded, Light);
    DumpTruthy(saved.dark.wallpaper);
    DumpTruthy(saved.light.wallpaper);
  }

  /** Which of the three resolution warnings a picked image raises. */
  datatype SizeWarning = ResolutionTooLow | WidthTooLow | HeightTooLow

  /**
   * `check_wallpaper_size`: an image narrower and shorter than the screen
   * is too low in resolution; otherwise one that is narrower is too low in
   * width, and one that is shorter too low in height.
   */
  function CheckWallpaperSize(width: int, height: int, screenWidth: int, screenHeight: int): (r: Option<SizeWarning>)
    ensures r.None? <==> width >= screenWidth && height >= screenHeight
    ensures r == Some(ResolutionTooLow) <==> width < screenWidth && height < screenHeight
    ensures r == Some(WidthTooLow) <==> width < screenWidth && height >= screenHeight
    ensures r == Some(HeightTooLow) <==> width >= screenWidth && height < screenHeight
  {
    if width < screenWidth && height < screenHeight then Some(ResolutionTooLow)
    else if width < screenWidth then Some(WidthTooLow)
    else if height < screenHeight then Some(HeightTooLow)
    else None
  }

  /** The dimensions in which the image falls short of the screen. */
  function ShortOf(width: int, height: int, screenWidth: int, screenHeight: int): set<string>
  {
    (if width < screenWidth then {"width"} else {}) + (if height < screenHeight then {"height"} else {})
  }

  /**
   * The warning shown names exactly the dimensions that fall short, so a
   * larger image never raises a warning a smaller one does not.
   */
  lemma {:induction false} SizeWarningNamesShortfall(width: int, height: int, screenWidth: int, screenHeight: int)
    ensures var r := CheckWallpaperSize(width, height, screenWidth, screenHeight);
      var s := ShortOf(width, height, screenWidth, screenHeight);
      && (r.None? <==> s == {})
      && (r == Some(ResolutionTooLow) <==> s == {"width", "height"})
      && (r == Some(WidthTooLow) <==> s == {"width"})
      && (r == Some(HeightTooLow) <==> s == {"height"})
  {
    var s := ShortOf(width, height, screenWidth, screenHeight);
    assert "width" != "height";
    if width < screenWidth && height >= screenHeight {
      assert s == {"width"};
    }
    if width >= screenWidth && height < screenHeight {
      assert s == {"height"};
      assert "width" !in s;
    }
    if width < screenWidth && height < screenHeight {
      assert "height" in s && "width" in s;
    }
  }

  /** Growing the image in either dimension never adds a shortfall. */
  lemma {:induction false} LargerImageWarnsLess(width: int, height: int, width': int, height': int, screenWidth: int, screenHeight: int)
    requires width <= width' && height <= height'
    ensures ShortOf(width', height', screenWidth, screenHeight) <= ShortOf(width, height, screenWidth, screenHeight)
    ensures CheckWallpaperSize(width, height, screenWidth, screenHeight).None? ==>
              CheckWallpaperSize(width', height', screenWidth, screenHeight).None?
  {
  }
}
