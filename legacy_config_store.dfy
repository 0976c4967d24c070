/**
 * settings.yaml as the stand-alone script `theme_switch.py` reads it. Its
 * validator is looser than the package's (field order and the presence of
 * the start and wallpaper fields are not checked) and lets exceptions
 * escape instead of turning them into a rejection.
 */
module LegacyConfigStore {
  import opened Wrappers
  import opened PyValue
  import opened YamlDump
  import opened ConfigStore

  /** Every field name is one of `low_keys`. */
  predicate FieldsKnown(es: seq<(string, Value)>)
  {
    forall j :: 0 <= j < |es| ==> es[j].0 in LowKeys
  }

  /** The three fields the script subscripts: brightness an int in 0..100, a bool flag, `os_theme` the position. */
  predicate TypedFields(es: seq<(string, Value)>, pos: int)
  {
    var b, e := Get(es, "brightness"), Get(es, "enable_schedule");
    && b.Some? && b.value.VInt? && 0 <= b.value.i <= 100
    && e.Some? && e.value.VBool?
    && Get(es, "os_theme") == Some(VInt(pos))
  }

  /**
   * The subscript that raises KeyError: a missing brightness, or a well
   * typed one followed by a missing flag, or both followed by a missing
   * `os_theme`.
   */
  predicate MissingTypedField(es: seq<(string, Value)>)
  {
    var b, e := Get(es, "brightness"), Get(es, "enable_schedule");
    || b.None?
    || (b.value.VInt? && 0 <= b.value.i <= 100 && e.None?)
    || (b.value.VInt? && 0 <= b.value.i <= 100 && e.value.VBool? && Get(es, "os_theme").None?)
  }

  /** Why a record was rejected or an exception escaped, in the order the checks run. */
  function LegacyCheckMode(rec: Value, pos: int): (r: Result<bool, PyError>)
    ensures r == Err(AttributeError) <==> !rec.VMap?
    ensures r == Ok(true) <==>
              && rec.VMap? && NoneFree(rec.entries) && FieldsKnown(rec.entries)
              && TypedFields(rec.entries, pos)
    ensures r == Err(KeyError) <==>
              && rec.VMap? && NoneFree(rec.entries) && FieldsKnown(rec.entries)
              && MissingTypedField(rec.entries)
    ensures r.Err? ==> r.error == AttributeError || r.error == KeyError
  {
    if !rec.VMap? then Err(AttributeError)
    else
      var es := rec.entries;
      if !NoneFree(es) then Ok(false)
      else if !FieldsKnown(es) then Ok(false)
      else
        var b, e, o := Get(es, "brightness"), Get(es, "enable_schedule"), Get(es, "os_theme");
        if b.None? then Err(KeyError)
        else if !(b.value.VInt? && 0 <= b.value.i <= 100) then Ok(false)
        else if e.None? then Err(KeyError)
        else if !e.value.VBool? then Ok(false)
        else if o.None? then Err(KeyError)
        else Ok(o.value == VInt(pos))
  }

  /**
   * `check_settings(settings)` of theme_switch.py: `Ok(None)` for False,
   * `Ok(Some(settings))` when it returns the mapping itself, `Err` for the
   * exception that escapes. A non-mapping raises AttributeError at
   * `.keys()`; wrong top-level keys give False; then each mode in turn is
   * checked for None values, unknown keys, and the three typed fields,
   * where a missing one raises KeyError.
   */
  function LegacyCheckSettings(v: Value): (r: Result<Option<Value>, PyError>)
    ensures !v.VMap? ==> r == Err(AttributeError)
    ensures v.VMap? && Keys(v.entries) != TopKeys ==> r == Ok(None)
    ensures r.Ok? && r.value.Some? ==> r.value.value == v
    ensures r == Ok(Some(v)) <==>
              && v.VMap? && Keys(v.entries) == TopKeys
              && LegacyCheckMode(v.entries[0].1, 0) == Ok(true)
              && LegacyCheckMode(v.entries[1].1, 1) == Ok(true)
    ensures v.VMap? && Keys(v.entries) == TopKeys && LegacyCheckMode(v.entries[0].1, 0).Err? ==>
              r == Err(LegacyCheckMode(v.entries[0].1, 0).error)
    ensures v.VMap? && Keys(v.entries) == TopKeys && LegacyCheckMode(v.entries[0].1, 0) == Ok(true)
            && LegacyCheckMode(v.entries[1].1, 1).Err? ==>
              r == Err(LegacyCheckMode(v.entries[1].1, 1).error)
  {
    if !v.VMap? then Err(AttributeError)
    else if Keys(v.entries) != TopKeys then Ok(None)
    else
      match LegacyCheckMode(v.entries[0].1, 0)
      case Err(e) => Err(e)
      case Ok(false) => Ok(None)
      case Ok(true) =>
        match LegacyCheckMode(v.entries[1].1, 1)
        case Err(e) => Err(e)
        case Ok(false) => Ok(None)
        case Ok(true) => Ok(Some(v))
  }

  /** Every record the package accepts, the script accepts too. */
  lemma PackageValidIsLegacyValid(v: Value)
    requires CheckSettings(v)
    ensures LegacyCheckSettings(v) == Ok(Some(v))
  {
    LegacyModeAccepts(v.entries[0].1, 0);
    LegacyModeAccepts(v.entries[1].1, 1);
  }

  lemma LegacyModeAccepts(rec: Value, pos: int)
    requires ModeRecordValid(rec, pos)
    ensures LegacyCheckMode(rec, pos) == Ok(true)
  {
    LowKeysLookup(rec.entries);
    KeysKnown(rec.entries);
  }

  lemma KeysKnown(es: seq<(string, Value)>)
    requires Keys(es) == LowKeys
    ensures FieldsKnown(es)
  {
    forall j | 0 <= j < |es|
      ensures es[j].0 in LowKeys
    {
      assert es[j].0 == Keys(es)[j];
    }
  }

  /**
   * The script is strictly looser: it accepts the default record as built
   * in memory, whose fields are not in `low_keys` order and which the
   * package's validator rejects (ConfigStore.DefaultInMemoryRejected).
   */
  lemma LegacyAcceptsDefaultInMemory()
    ensures LegacyCheckSettings(DefaultSettings()) == Ok(Some(DefaultSettings()))
  {
    DefaultShaped();
    LegacyAcceptsShaped(DefaultSettings());
  }

  /** The shape of the default record as built in memory, field by field. */
  predicate DefaultModeShape(es: seq<(string, Value)>, pos: int)
  {
    && |es| == 6
    && es[0].0 == "brightness" && es[1].0 == "os_theme" && es[2].0 == "wallpaper"
    && es[3].0 == "start_hour" && es[4].0 == "start_minute" && es[5].0 == "enable_schedule"
    && es[0].1.VInt? && 0 <= es[0].1.i <= 100 && es[1].1 == VInt(pos) && es[5].1.VBool?
    && es[2].1 != VNull && es[3].1 != VNull && es[4].1 != VNull
  }

  lemma DefaultShaped()
    ensures var v := DefaultSettings();
      && Keys(v.entries) == TopKeys
      && v.entries[0].1.VMap? && DefaultModeShape(v.entries[0].1.entries, 0)
      && v.entries[1].1.VMap? && DefaultModeShape(v.entries[1].1.entries, 1)
  {
  }

  lemma LegacyAcceptsShaped(v: Value)
    requires v.VMap? && Keys(v.entries) == TopKeys
    requires v.entries[0].1.VMap? && DefaultModeShape(v.entries[0].1.entries, 0)
    requires v.entries[1].1.VMap? && DefaultModeShape(v.entries[1].1.entries, 1)
    ensures LegacyCheckSettings(v) == Ok(Some(v))
  {
    DefaultModeAccepted(v.entries[0].1.entries, 0);
    DefaultModeAccepted(v.entries[1].1.entries, 1);
    LegacyAcceptsModes(v);
  }

  lemma LegacyAcceptsModes(v: Value)
    requires v.VMap? && Keys(v.entries) == TopKeys
    requires v.entries[0].1.VMap? && LegacyCheckMode(VMap(v.entries[0].1.entries), 0) == Ok(true)
    requires v.entries[1].1.VMap? && LegacyCheckMode(VMap(v.entries[1].1.entries), 1) == Ok(true)
    ensures LegacyCheckSettings(v) == Ok(Some(v))
  {
    assert VMap(v.entries[0].1.entries) == v.entries[0].1;
    assert VMap(v.entries[1].1.entries) == v.entries[1].1;
  }

  /** A mapping without None values, with only known fields and the three typed fields well typed, passes. */
  lemma LegacyModeFields(rec: Value, pos: int)
    requires rec.VMap? && NoneFree(rec.entries)
    requires FieldsKnown(rec.entries)
    requires var b := Get(rec.entries, "brightness"); b.Some? && b.value.VInt? && 0 <= b.value.i <= 100
    requires var e := Get(rec.entries, "enable_schedule"); e.Some? && e.value.VBool?
    requires Get(rec.entries, "os_theme") == Some(VInt(pos))
    ensures LegacyCheckMode(rec, pos) == Ok(true)
  {
  }

  /** The fields of the default record, in the order it builds them, pass the script's validator. */
  lemma DefaultModeAccepted(es: seq<(string, Value)>, pos: int)
    requires DefaultModeShape(es, pos)
    ensures LegacyCheckMode(VMap(es), pos) == Ok(true)
  {
    DefaultHeadAt(es);
    DefaultScheduleAt(es);
    DefaultKeysKnown(es);
    assert NoneFree(es);
    LegacyModeFields(VMap(es), pos);
  }

  /** `brightness` and `os_theme`, the default's first two fields, are found by lookup. */
  lemma DefaultHeadAt(es: seq<(string, Value)>)
    requires |es| == 6 && es[0].0 == "brightness" && es[1].0 == "os_theme"
    ensures Get(es, "brightness") == Some(es[0].1) && Get(es, "os_theme") == Some(es[1].1)
  {
    GetAt(es, 0);
    GetAt(es, 1);
  }

  /** `enable_schedule`, the default's last field, is found by lookup. */
  lemma DefaultScheduleAt(es: seq<(string, Value)>)
    requires |es| == 6
    requires es[0].0 == "brightness" && es[1].0 == "os_theme" && es[2].0 == "wallpaper"
    requires es[3].0 == "start_hour" && es[4].0 == "start_minute" && es[5].0 == "enable_schedule"
    ensures Get(es, "enable_schedule") == Some(es[5].1)
  {
    GetAt(es, 5);
  }

  /** Each field of the default record is one of `low_keys`. */
  lemma DefaultKeysKnown(es: seq<(string, Value)>)
    requires |es| == 6
    requires es[0].0 == "brightness" && es[1].0 == "os_theme" && es[2].0 == "wallpaper"
    requires es[3].0 == "start_hour" && es[4].0 == "start_minute" && es[5].0 == "enable_schedule"
    ensures FieldsKnown(es)
  {
    assert es[0].0 == LowKeys[0] && es[1].0 == LowKeys[2] && es[2].0 == LowKeys[5];
    assert es[3].0 == LowKeys[3] && es[4].0 == LowKeys[4] && es[5].0 == LowKeys[1];
  }

  /**
   * `load_settings()` of theme_switch.py: a missing file, or a record the
   * validator rejects, is replaced by the dumped default and the default is
   * returned; a record it accepts is returned as loaded; an exception from
   * the validator (a file that is empty or not a mapping, a mode that is
   * not a mapping, a missing typed field) escapes and nothing is written.
   */
  method LegacyLoadSettings(f: SettingsFile) returns (r: Result<Value, PyError>)
    modifies f
    ensures old(f.stored).None? ==>
              r == Ok(DefaultSettings()) && f.stored == Some(Dump(DefaultSettings()))
              && f.writes == old(f.writes) + [Dump(DefaultSettings())]
    ensures old(f.stored).Some? ==> match LegacyCheckSettings(old(f.stored).value)
      case Err(e) => r == Err(e) && f.stored == old(f.stored) && f.writes == old(f.writes)
      case Ok(Some(v)) => r == Ok(v) && f.stored == old(f.stored) && f.writes == old(f.writes)
      case Ok(None) => r == Ok(DefaultSettings()) && f.stored == Some(Dump(DefaultSettings()))
                       && f.writes == old(f.writes) + [Dump(DefaultSettings())]
  {
    if f.stored.Some? {
      var checked := LegacyCheckSettings(f.stored.value);
      if checked.Err? {
        return Err(checked.error);
      }
      if checked.value.Some? {
        return Ok(checked.value.value);
      }
    }
    f.Write(DefaultSettings());
    r := Ok(DefaultSettings());
  }
}
