/**
 * settings.yaml as the package reads and repairs it: the validator
 * `check_settings`, the default record, and `load_settings`, which either
 * hands back a valid stored record or replaces the file with the default.
 */
module ConfigStore {
  import opened Wrappers
  import opened PyValue
  import opened YamlDump

  /** `top_keys`: the two mode records, in this order. */
  const TopKeys: seq<string> := ["dark_mode", "light_mode"]

  /** `low_keys`: the fields of a mode record, in this (sorted) order. */
  const LowKeys: seq<string> := ["brightness", "enable_schedule", "os_theme", "start_hour", "start_minute", "wallpaper"]

  /** The fields of one mode as a typed record; the three unchecked fields stay loosely typed. */
  datatype ModeSettings = ModeSettings(
    brightness: int, enableSchedule: bool, osTheme: int,
    startHour: Value, startMinute: Value, wallpaper: Value)

  datatype Config = Config(dark: ModeSettings, light: ModeSettings)

  /** A mode record the validator accepts at position `pos` (0 dark, 1 light). */
  predicate ModeValid(m: ModeSettings, pos: int)
  {
    && 0 <= m.brightness <= 100
    && m.osTheme == pos
    && m.startHour != VNull && m.startMinute != VNull && m.wallpaper != VNull
  }

  predicate ConfigValid(c: Config)
  {
    ModeValid(c.dark, 0) && ModeValid(c.light, 1)
  }

  /** A typed mode record as the mapping the loader produces, keys in `low_keys` order. */
  function EncodeMode(m: ModeSettings): (v: Value)
    ensures v.VMap? && Keys(v.entries) == LowKeys
  {
    VMap([("brightness", VInt(m.brightness)), ("enable_schedule", VBool(m.enableSchedule)),
          ("os_theme", VInt(m.osTheme)), ("start_hour", m.startHour),
          ("start_minute", m.startMinute), ("wallpaper", m.wallpaper)])
  }

  function Encode(c: Config): (v: Value)
    ensures v.VMap? && Keys(v.entries) == TopKeys
  {
    VMap([("dark_mode", EncodeMode(c.dark)), ("light_mode", EncodeMode(c.light))])
  }

  /** No field of the record is None. */
  predicate NoneFree(es: seq<(string, Value)>)
  {
    forall j :: 0 <= j < |es| ==> es[j].1 != VNull
  }

  /** The checks applied to `settings[mode]` for the mode at position `pos`. */
  predicate ModeRecordValid(rec: Value, pos: int)
  {
    && rec.VMap?
    && Keys(rec.entries) == LowKeys
    && NoneFree(rec.entries)
    && (var b := Get(rec.entries, "brightness").value; b.VInt? && 0 <= b.i <= 100)
    && Get(rec.entries, "enable_schedule").value.VBool?
    && Get(rec.entries, "os_theme").value == VInt(pos)
  }

  /**
   * `check_settings(settings)`: True only for a mapping with exactly the
   * keys `dark_mode`, `light_mode` in that order, each a mapping with
   * exactly the six fields in `low_keys` order, none of them None, an exact
   * int brightness in 0..100, a bool `enable_schedule` and `os_theme` equal
   * to the mode's position. Anything that is not a mapping makes the
   * attribute lookups fail, which the function turns into False.
   */
  predicate CheckSettings(v: Value)
  {
    && v.VMap?
    && Keys(v.entries) == TopKeys
    && ModeRecordValid(v.entries[0].1, 0)
    && ModeRecordValid(v.entries[1].1, 1)
  }

  /** Read a mode record the validator accepted back into its typed form. */
  function DecodeMode(rec: Value): (m: ModeSettings)
    requires rec.VMap? && Keys(rec.entries) == LowKeys
  {
    var es := rec.entries;
    ModeSettings(
      if es[0].1.VInt? then es[0].1.i else 0,
      es[1].1.VBool? && es[1].1.b,
      if es[2].1.VInt? then es[2].1.i else -1,
      es[3].1, es[4].1, es[5].1)
  }

  /** The six field names are in strictly ascending order, as `low_keys` lists them. */
  lemma LowKeysAscending()
    ensures KeyLess("brightness", "enable_schedule") && KeyLess("enable_schedule", "os_theme")
    ensures KeyLess("os_theme", "start_hour") && KeyLess("start_hour", "start_minute")
    ensures KeyLess("start_minute", "wallpaper")
  {
    KeyLessAt("start_hour", "start_minute", 6);
  }

  /** With the keys of `low_keys`, a field lookup reads the field's position. */
  lemma LowKeysLookup(es: seq<(string, Value)>)
    requires Keys(es) == LowKeys
    ensures Get(es, "brightness") == Some(es[0].1)
    ensures Get(es, "enable_schedule") == Some(es[1].1)
    ensures Get(es, "os_theme") == Some(es[2].1)
  {
    assert es[0].0 == "brightness" && es[1].0 == "enable_schedule" && es[2].0 == "os_theme";
    GetAt(es, 0);
    GetAt(es, 1);
    GetAt(es, 2);
  }

  /** A typed mode record is valid exactly when its mapping passes the per-mode checks. */
  lemma EncodeModeValid(m: ModeSettings, pos: int)
    ensures ModeRecordValid(EncodeMode(m), pos) <==> ModeValid(m, pos)
  {
    var es := EncodeMode(m).entries;
    LowKeysLookup(es);
    EncodeModeNoneFree(m);
  }

  /** Only the three loosely typed fields of an encoded record can be None. */
  lemma EncodeModeNoneFree(m: ModeSettings)
    ensures NoneFree(EncodeMode(m).entries) <==> m.startHour != VNull && m.startMinute != VNull && m.wallpaper != VNull
  {
    var es := EncodeMode(m).entries;
    if NoneFree(es) {
      assert es[3].1 != VNull && es[4].1 != VNull && es[5].1 != VNull;
    }
  }

  /** A typed record is valid exactly when its mapping passes the validator. */
  lemma EncodeValid(c: Config)
    ensures CheckSettings(Encode(c)) <==> ConfigValid(c)
  {
    EncodeModeValid(c.dark, 0);
    EncodeModeValid(c.light, 1);
    assert Encode(c).entries[0].1 == EncodeMode(c.dark);
    assert Encode(c).entries[1].1 == EncodeMode(c.light);
  }

  /** Entries with the keys of `low_keys` are the six fields in that order. */
  lemma LowEntries(es: seq<(string, Value)>)
    requires Keys(es) == LowKeys
    ensures es == [("brightness", es[0].1), ("enable_schedule", es[1].1), ("os_theme", es[2].1),
                   ("start_hour", es[3].1), ("start_minute", es[4].1), ("wallpaper", es[5].1)]
  {
    assert es[0].0 == "brightness" && es[1].0 == "enable_schedule" && es[2].0 == "os_theme";
    assert es[3].0 == "start_hour" && es[4].0 == "start_minute" && es[5].0 == "wallpaper";
  }

  lemma DecodeModeValid(rec: Value, pos: int)
    requires ModeRecordValid(rec, pos)
    ensures EncodeMode(DecodeMode(rec)) == rec
    ensures ModeValid(DecodeMode(rec), pos)
  {
    var es := rec.entries;
    LowKeysLookup(es);
    LowEntries(es);
    assert es[3].1 != VNull && es[4].1 != VNull && es[5].1 != VNull;
  }

  /** Entries with the keys of `top_keys` are the two mode records in order. */
  lemma TopEntries(es: seq<(string, Value)>)
    requires Keys(es) == TopKeys
    ensures es == [("dark_mode", es[0].1), ("light_mode", es[1].1)]
  {
    assert es[0].0 == "dark_mode" && es[1].0 == "light_mode";
  }

  /** Every record the validator accepts is the mapping of a valid typed record. */
  lemma CheckSettingsDecodes(v: Value)
    requires CheckSettings(v)
    ensures var c := Config(DecodeMode(v.entries[0].1), DecodeMode(v.entries[1].1));
      ConfigValid(c) && Encode(c) == v
  {
    DecodeModeValid(v.entries[0].1, 0);
    DecodeModeValid(v.entries[1].1, 1);
    TopEntries(v.entries);
  }

  /**
   * The default record as the source builds it, in its own key order:
   * dark brightness 0 starting 07:00, light brightness 100 starting 19:00,
   * no wallpaper, schedule off.
   */
  function DefaultSettings(): Value
  {
    VMap([
      ("dark_mode", VMap([("brightness", VInt(0)), ("os_theme", VInt(0)), ("wallpaper", VStr("")),
                          ("start_hour", VStr("07")), ("start_minute", VStr("00")), ("enable_schedule", VBool(false))])),
      ("light_mode", VMap([("brightness", VInt(100)), ("os_theme", VInt(1)), ("wallpaper", VStr("")),
                           ("start_hour", VStr("19")), ("start_minute", VStr("00")), ("enable_schedule", VBool(false))]))])
  }

  /** The same default as a typed record. */
  function DefaultConfig(): (c: Config)
    ensures ConfigValid(c)
  {
    Config(ModeSettings(0, false, 0, VStr("07"), VStr("00"), VStr("")),
           ModeSettings(100, false, 1, VStr("19"), VStr("00"), VStr("")))
  }

  lemma InsertMinute(e: Value, mi: Value)
    ensures Insert(("start_minute", mi), [("enable_schedule", e)]) == [("enable_schedule", e), ("start_minute", mi)]
  {
    assert !KeyLess("start_minute", "enable_schedule");
    assert Insert(("start_minute", mi), []) == [("start_minute", mi)];
    assert [("enable_schedule", e)][1..] == [];
  }

  lemma HourBeforeMinute()
    ensures KeyLess("start_hour", "start_minute")
  {
    var a, b := "start_hour", "start_minute";
    assert a[..6] == b[..6] == "start_";
    KeyLessAt(a, b, 6);
  }

  lemma InsertHour(e: Value, h: Value, mi: Value)
    ensures Insert(("start_hour", h), [("enable_schedule", e), ("start_minute", mi)])
         == [("enable_schedule", e), ("start_hour", h), ("start_minute", mi)]
  {
    var eE, eH, eM := ("enable_schedule", e), ("start_hour", h), ("start_minute", mi);
    assert !KeyLess(eH.0, eE.0);
    HourBeforeMinute();
    assert Insert(eH, [eM]) == [eH, eM];
    assert [eE, eM][1..] == [eM];
    assert Insert(eH, [eE, eM]) == [eE] + Insert(eH, [eM]);
  }

  lemma InsertWallpaper(e: Value, h: Value, mi: Value, w: Value)
    ensures Insert(("wallpaper", w), [("enable_schedule", e), ("start_hour", h), ("start_minute", mi)])
         == [("enable_schedule", e), ("start_hour", h), ("start_minute", mi), ("wallpaper", w)]
  {
    var eE, eH, eM, eW := ("enable_schedule", e), ("start_hour", h), ("start_minute", mi), ("wallpaper", w);
    assert !KeyLess(eW.0, eM.0) && !KeyLess(eW.0, eH.0) && !KeyLess(eW.0, eE.0);
    assert Insert(eW, []) == [eW];
    assert [eM][1..] == [];
    assert Insert(eW, [eM]) == [eM] + Insert(eW, []);
    assert [eH, eM][1..] == [eM];
    assert Insert(eW, [eH, eM]) == [eH] + Insert(eW, [eM]);
    assert [eE, eH, eM][1..] == [eH, eM];
    assert Insert(eW, [eE, eH, eM]) == [eE] + Insert(eW, [eH, eM]);
  }

  lemma InsertTheme(e: Value, h: Value, mi: Value, w: Value, o: Value)
    ensures Insert(("os_theme", o), [("enable_schedule", e), ("start_hour", h), ("start_minute", mi), ("wallpaper", w)])
         == [("enable_schedule", e), ("os_theme", o), ("start_hour", h), ("start_minute", mi), ("wallpaper", w)]
  {
    var eE, eO, eH, eM, eW := ("enable_schedule", e), ("os_theme", o), ("start_hour", h), ("start_minute", mi), ("wallpaper", w);
    assert !KeyLess(eO.0, eE.0) && KeyLess(eO.0, eH.0);
    assert Insert(eO, [eH, eM, eW]) == [eO, eH, eM, eW];
    assert [eE, eH, eM, eW][1..] == [eH, eM, eW];
    assert Insert(eO, [eE, eH, eM, eW]) == [eE] + Insert(eO, [eH, eM, eW]);
  }

  lemma InsertBrightness(e: Value, h: Value, mi: Value, w: Value, o: Value, b: Value)
    ensures Insert(("brightness", b), [("enable_schedule", e), ("os_theme", o), ("start_hour", h), ("start_minute", mi), ("wallpaper", w)])
         == [("brightness", b), ("enable_schedule", e), ("os_theme", o), ("start_hour", h), ("start_minute", mi), ("wallpaper", w)]
  {
    assert KeyLess("brightness", "enable_schedule");
  }

  /** The six fields of a mode in the order the default builds them come out in `low_keys` order once dumped. */
  lemma SortDefaultOrder(b: Value, o: Value, w: Value, h: Value, mi: Value, e: Value)
    ensures SortEntries([("brightness", b), ("os_theme", o), ("wallpaper", w),
                         ("start_hour", h), ("start_minute", mi), ("enable_schedule", e)])
         == [("brightness", b), ("enable_schedule", e), ("os_theme", o),
             ("start_hour", h), ("start_minute", mi), ("wallpaper", w)]
  {
    var eE, eM, eH, eW, eO, eB := ("enable_schedule", e), ("start_minute", mi), ("start_hour", h),
                                  ("wallpaper", w), ("os_theme", o), ("brightness", b);
    SortCons(eE, []);
    SortCons(eM, [eE]);
    InsertMinute(e, mi);
    SortCons(eH, [eM, eE]);
    InsertHour(e, h, mi);
    SortCons(eW, [eH, eM, eE]);
    InsertWallpaper(e, h, mi, w);
    SortCons(eO, [eW, eH, eM, eE]);
    InsertTheme(e, h, mi, w, o);
    SortCons(eB, [eO, eW, eH, eM, eE]);
    InsertBrightness(e, h, mi, w, o, b);
    assert [eB] + [eO, eW, eH, eM, eE] == [eB, eO, eW, eH, eM, eE];
  }

  lemma DumpDefaultMode(b: int, o: int, h: string, mi: string)
    ensures Dump(VMap([("brightness", VInt(b)), ("os_theme", VInt(o)), ("wallpaper", VStr("")),
                       ("start_hour", VStr(h)), ("start_minute", VStr(mi)), ("enable_schedule", VBool(false))]))
         == EncodeMode(ModeSettings(b, false, o, VStr(h), VStr(mi), VStr("")))
  {
    var es := [("brightness", VInt(b)), ("os_theme", VInt(o)), ("wallpaper", VStr("")),
               ("start_hour", VStr(h)), ("start_minute", VStr(mi)), ("enable_schedule", VBool(false))];
    assert DumpEntries(es) == es;
    SortDefaultOrder(VInt(b), VInt(o), VStr(""), VStr(h), VStr(mi), VBool(false));
  }

  /** An encoded mode record is already in key order. */
  lemma EncodeModeSorted(m: ModeSettings)
    ensures StrictlySorted(EncodeMode(m).entries)
  {
    LowKeysAscending();
  }

  /** The encoded mode and top-level mappings are already in key order. */
  lemma EncodedSorted(c: Config)
    ensures StrictlySorted(EncodeMode(c.dark).entries) && StrictlySorted(EncodeMode(c.light).entries)
    ensures StrictlySorted(Encode(c).entries)
  {
    EncodeModeSorted(c.dark);
    EncodeModeSorted(c.light);
    assert KeyLess("dark_mode", "light_mode");
  }

  /** Dumping a two-mode mapping whose keys are in order dumps each mode in place. */
  lemma DumpTop(a: Value, b: Value)
    ensures Dump(VMap([("dark_mode", a), ("light_mode", b)])) == VMap([("dark_mode", Dump(a)), ("light_mode", Dump(b))])
  {
    var es := [("dark_mode", a), ("light_mode", b)];
    var de := DumpEntries(es);
    assert de == [("dark_mode", Dump(a)), ("light_mode", Dump(b))];
    assert KeyLess("dark_mode", "light_mode");
    SortEntriesKeepsSorted(de);
  }

  /**
   * The file written on repair: once dumped, the default's fields are in
   * `low_keys` order, so the next run's validator accepts it.
   */
  lemma DumpedDefault()
    ensures Dump(DefaultSettings()) == Encode(DefaultConfig())
    ensures CheckSettings(Dump(DefaultSettings()))
  {
    var d := DefaultSettings().entries;
    DumpTop(d[0].1, d[1].1);
    DumpDefaultMode(0, 0, "07", "00");
    DumpDefaultMode(100, 1, "19", "00");
    EncodeValid(DefaultConfig());
  }

  /**
   * The default as built in memory is not itself in `low_keys` order, so
   * the validator would reject it; only the dumped copy passes.
   */
  lemma DefaultInMemoryRejected()
    ensures !CheckSettings(DefaultSettings())
  {
    var rec := DefaultSettings().entries[0].1;
    assert Keys(rec.entries)[1] == "os_theme";
  }

  /** A mode record with its three unchecked fields as a write and reload leaves them. */
  function DumpedMode(m: ModeSettings): ModeSettings
  {
    m.(startHour := Dump(m.startHour), startMinute := Dump(m.startMinute), wallpaper := Dump(m.wallpaper))
  }

  lemma DumpEncodedMode(m: ModeSettings)
    ensures Dump(EncodeMode(m)) == EncodeMode(DumpedMode(m))
  {
    var de := DumpEntries(EncodeMode(m).entries);
    var target := EncodeMode(DumpedMode(m)).entries;
    assert Dump(VInt(m.brightness)) == VInt(m.brightness);
    assert Dump(VBool(m.enableSchedule)) == VBool(m.enableSchedule);
    assert Dump(VInt(m.osTheme)) == VInt(m.osTheme);
    assert de == target;
    EncodeModeSorted(DumpedMode(m));
    SortEntriesKeepsSorted(de);
  }

  /** Writing a typed record and reading it back changes nothing but the unchecked fields' own mappings. */
  lemma DumpEncoded(c: Config)
    ensures Dump(Encode(c)) == Encode(Config(DumpedMode(c.dark), DumpedMode(c.light)))
  {
    DumpTop(EncodeMode(c.dark), EncodeMode(c.light));
    DumpEncodedMode(c.dark);
    DumpEncodedMode(c.light);
  }

  /** Dumping never produces None from a value that was not None. */
  lemma DumpNotNull(v: Value)
    ensures Dump(v) == VNull <==> v == VNull
  {
  }

  lemma DumpedModeValid(m: ModeSettings, pos: int)
    ensures ModeValid(DumpedMode(m), pos) <==> ModeValid(m, pos)
  {
    DumpNotNull(m.startHour);
    DumpNotNull(m.startMinute);
    DumpNotNull(m.wallpaper);
  }

  /** A record the validator accepts still passes after a write and reload. */
  lemma DumpKeepsValid(v: Value)
    requires CheckSettings(v)
    ensures CheckSettings(Dump(v))
  {
    CheckSettingsDecodes(v);
    var c := Config(DecodeMode(v.entries[0].1), DecodeMode(v.entries[1].1));
    DumpEncoded(c);
    DumpedModeValid(c.dark, 0);
    DumpedModeValid(c.light, 1);
    EncodeValid(Config(DumpedMode(c.dark), DumpedMode(c.light)));
  }

  /**
   * settings.yaml: `stored` is what the next `yaml.load` returns (None when
   * the file does not exist, `VNull` for an empty file); `writes` records
   * every document written, in order.
   */
  class SettingsFile {
    var stored: Option<Value>
    var writes: seq<Value>

    constructor(stored: Option<Value>)
      ensures this.stored == stored && writes == []
    {
      this.stored := stored;
      writes := [];
    }

    /** `yaml.dump(settings, file)` on a file opened for writing. */
    method Write(v: Value)
      modifies this
      ensures stored == Some(Dump(v)) && writes == old(writes) + [Dump(v)]
    {
      stored := Some(Dump(v));
      writes := writes + [Dump(v)];
    }

    /** Opening the file with mode "w" and writing nothing: it is left empty and loads as None. */
    method Truncate()
      modifies this
      ensures stored == Some(VNull) && writes == old(writes) + [VNull]
    {
      stored := Some(VNull);
      writes := writes + [VNull];
    }
  }

  /** The file holds a record the validator accepts. */
  predicate HoldsValid(stored: Option<Value>)
  {
    stored.Some? && CheckSettings(stored.value)
  }

  /**
   * `load_settings()`: a valid stored record is returned as loaded and
   * nothing is written; a missing file or a record the validator rejects
   * is replaced by the dumped default, and the default is returned. Either
   * way the file then holds a valid record, so a second call writes nothing.
   */
  method LoadSettings(f: SettingsFile) returns (settings: Value)
    modifies f
    ensures HoldsValid(old(f.stored)) ==>
              settings == old(f.stored).value && f.stored == old(f.stored) && f.writes == old(f.writes)
    ensures !HoldsValid(old(f.stored)) ==>
              settings == DefaultSettings() && f.stored == Some(Dump(DefaultSettings()))
              && f.writes == old(f.writes) + [Dump(DefaultSettings())]
    ensures HoldsValid(f.stored)
  {
    if f.stored.Some? && CheckSettings(f.stored.value) {
      settings := f.stored.value;
    } else {
      settings := DefaultSettings();
      f.Write(settings);
      DumpedDefault();
    }
  }
}
