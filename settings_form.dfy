/**
 * The settings window of both front ends (themeswitch/gui.py and
 * theme_switch_gui.py, which share this code): one tab per mode, five Tk
 * variables per tab, filled from settings.yaml by `read_settings`, written
 * back by `save_settings`, and turned into scheduled tasks by
 * `apply_changes`. A Tk variable is modelled as the value it was last set to.
 */
module SettingsForm {
  import opened Wrappers
  import opened PyValue
  import opened PyText
  import opened Modes
  import opened TaskScheduler
  import opened YamlDump
  import ConfigStore
  import LegacyConfigStore
  import Reconciler

  /** The Tk variables of one tab: brightness scale, wallpaper path, start hour and minute, schedule checkbox. */
  datatype Form = Form(brightness: Value, wallpaper: Value, startHour: Value, startMinute: Value, enableSchedule: Value)

  /** The state a ttk spinbox is configured with; a new spinbox is `normal`. */
  datatype SpinState = Normal | Disabled | ReadOnly

  /** `'readonly' if checked else tk.DISABLED`. */
  function SpinFor(checked: Value): SpinState
  {
    if Truthy(checked) then ReadOnly else Disabled
  }

  /** `settings[mode][key]`. */
  function Field(settings: Value, m: Mode, key: string): Result<Value, PyError>
  {
    match PyValue.Index(settings, ModeKey(m))
    case Err(e) => Err(e)
    case Ok(rec) => PyValue.Index(rec, key)
  }

  /** The entries have every field a tab shows. */
  predicate FormFields(es: seq<(string, Value)>)
  {
    && "brightness" in Keys(es) && "wallpaper" in Keys(es) && "start_hour" in Keys(es)
    && "start_minute" in Keys(es) && "enable_schedule" in Keys(es)
  }

  /** The settings hold a mapping for the mode with every field a tab shows. */
  predicate HasFormFields(settings: Value, m: Mode)
  {
    && settings.VMap?
    && Get(settings.entries, ModeKey(m)).Some?
    && Get(settings.entries, ModeKey(m)).value.VMap?
    && FormFields(Get(settings.entries, ModeKey(m)).value.entries)
  }

  /** What a tab shows for a record: each falsy field replaced by its default (0, "", "09", "30", False). */
  function FormOf(es: seq<(string, Value)>): Form
    requires FormFields(es)
  {
    Form(Or(Get(es, "brightness").value, VInt(0)), Or(Get(es, "wallpaper").value, VStr("")),
         Or(Get(es, "start_hour").value, VStr("09")), Or(Get(es, "start_minute").value, VStr("30")),
         Or(Get(es, "enable_schedule").value, VBool(false)))
  }

  /**
   * One iteration of the `read_settings` loop, up to the spinbox state:
   * the five variables are set in turn, and a failed lookup stops the
   * read with the variables before it already set.
   */
  function ReadTab(settings: Value, m: Mode, fm: Form): (r: (Form, Outcome))
    ensures r.1.Pass? <==> HasFormFields(settings, m)
    ensures r.1.Pass? ==> r.0 == FormOf(Get(settings.entries, ModeKey(m)).value.entries)
    ensures r.1.Raise? ==> (r.1.error == KeyError <==> settings.VMap? && (Get(settings.entries, ModeKey(m)).None? || Get(settings.entries, ModeKey(m)).value.VMap?))
    ensures r.1.Raise? ==> r.1.error == TypeError || r.1.error == KeyError
  {
    var b := Field(settings, m, "brightness");
    if b.Err? then (fm, Raise(b.error)) else
    var f1 := fm.(brightness := Or(b.value, VInt(0)));
    var w := Field(settings, m, "wallpaper");
    if w.Err? then (f1, Raise(w.error)) else
    var f2 := f1.(wallpaper := Or(w.value, VStr("")));
    var h := Field(settings, m, "start_hour");
    if h.Err? then (f2, Raise(h.error)) else
    var f3 := f2.(startHour := Or(h.value, VStr("09")));
    var mi := Field(settings, m, "start_minute");
    if mi.Err? then (f3, Raise(mi.error)) else
    var f4 := f3.(startMinute := Or(mi.value, VStr("30")));
    var e := Field(settings, m, "enable_schedule");
    if e.Err? then (f4, Raise(e.error)) else
    (f4.(enableSchedule := Or(e.value, VBool(false))), Pass)
  }

  /** The variables of both tabs and the `spin_state` list. */
  datatype Tabs = Tabs(forms: seq<Form>, spin: seq<SpinState>)

  /** The `read_settings` loop over the first n modes of a loaded record. */
  function ReadFrom(settings: Value, t: Tabs, n: nat): (r: (Tabs, Outcome))
    requires |t.forms| == 2 && |t.spin| == 2 && n <= 2
    ensures |r.0.forms| == 2 && |r.0.spin| == 2
  {
    if n == 0 then (t, Pass)
    else
      var prev := ReadFrom(settings, t, n - 1);
      if prev.1.Raise? then prev
      else
        var tab := ReadTab(settings, ModeAt(n - 1), prev.0.forms[n - 1]);
        var forms := prev.0.forms[n - 1 := tab.0];
        if tab.1.Raise? then (Tabs(forms, prev.0.spin), tab.1)
        else (Tabs(forms, prev.0.spin[n - 1 := SpinFor(Field(settings, ModeAt(n - 1), "enable_schedule").value)]), Pass)
  }

  /** `settings[mode][...] = ...` for tab i: the six assignments, on a record that must be a mapping. */
  function SaveRecord(rec: Value, fm: Form, i: nat): (r: Result<Value, PyError>)
    ensures r.Ok? <==> rec.VMap?
    ensures r.Err? ==> r.error == TypeError
  {
    if !rec.VMap? then Err(TypeError) else Ok(VMap(SaveEntries(rec.entries, fm, i)))
  }

  /** One iteration of the `save_settings` loop: the mode's record is updated in place inside the loaded settings. */
  function SaveMode(settings: Value, fm: Form, i: nat): Result<Value, PyError>
    requires i < 2
  {
    var key := ModeKey(ModeAt(i));
    match PyValue.Index(settings, key)
    case Err(e) => Err(e)
    case Ok(rec) =>
      match SaveRecord(rec, fm, i)
      case Err(e) => Err(e)
      case Ok(updated) => Ok(VMap(Put(settings.entries, key, updated)))
  }

  /** The `save_settings` loop over the first n modes. */
  function SavedUpTo(settings: Value, forms: seq<Form>, n: nat): Result<Value, PyError>
    requires |forms| == 2 && n <= 2
  {
    if n == 0 then Ok(settings)
    else
      match SavedUpTo(settings, forms, n - 1)
      case Err(e) => Err(e)
      case Ok(v) => SaveMode(v, forms[n - 1], n - 1)
  }

  /** What a call does to settings.yaml: its outcome, what the file then holds, and the documents written. */
  datatype FileEffect = FileEffect(outcome: Outcome, stored: Option<Value>, written: seq<Value>)

  /**
   * `save_settings`: a missing file raises before anything is written; the
   * file is then emptied by reopening it for writing, so an exception in
   * the loop leaves it empty; otherwise the updated record is dumped.
   */
  function SaveEffect(stored: Option<Value>, forms: seq<Form>): FileEffect
    requires |forms| == 2
  {
    if stored.None? then FileEffect(Raise(FileNotFoundError), None, [])
    else
      match SavedUpTo(stored.value, forms, 2)
      case Err(e) => FileEffect(Raise(e), Some(VNull), [VNull])
      case Ok(v) => FileEffect(Pass, Some(Dump(v)), [VNull, Dump(v)])
  }

  /** The start fields of a tab can be put into an f-string. */
  predicate Timed(fm: Form)
  {
    FormatValue(fm.startHour).Some? && FormatValue(fm.startMinute).Some?
  }

  /** `f"{self.start_hour[c].get()}:{self.start_minute[c].get()}"`. */
  function FormTime(fm: Form): (t: string)
    requires Timed(fm)
    ensures ':' in t
  {
    var t := FormatValue(fm.startHour).value + ":" + FormatValue(fm.startMinute).value;
    assert t[|FormatValue(fm.startHour).value|] == ':';
    t
  }

  /** The schedule a tab describes. */
  function FormPlan(fm: Form): Reconciler.Plan
    requires Timed(fm)
  {
    Reconciler.Plan(FormTime(fm), Truthy(fm.enableSchedule))
  }

  /** The SCHTASKS commands `apply_changes` issues for one tab. */
  function TabCommands(fm: Form, m: Mode): seq<Command>
    requires Timed(fm)
  {
    if Truthy(fm.enableSchedule) then [Change(m, Enable), Create(m, FormTime(fm))] else [Change(m, Disable)]
  }

  /** The task after `apply_changes` handled its tab. */
  function AppliedTask(t: TaskState, fm: Form): TaskState
    requires Timed(fm)
  {
    if Truthy(fm.enableSchedule) then Present(true, FormTime(fm))
    else if t.Absent? then Absent
    else Present(false, t.time)
  }

  /** The default record as both tabs show it. */
  function DefaultForms(): seq<Form>
  {
    [Form(VInt(0), VStr(""), VStr("07"), VStr("00"), VBool(false)),
     Form(VInt(100), VStr(""), VStr("19"), VStr("00"), VBool(false))]
  }

  /** The entries of the mode's record. */
  function Record(settings: Value, m: Mode): seq<(string, Value)>
    requires HasFormFields(settings, m)
  {
    Get(settings.entries, ModeKey(m)).value.entries
  }

  /** A lookup of a field the record has. */
  lemma {:induction false} FieldOf(settings: Value, m: Mode, key: string)
    requires HasFormFields(settings, m) && key in Keys(Record(settings, m))
    ensures Field(settings, m, key) == Ok(Get(Record(settings, m), key).value)
  {
  }

  /** A read that stops at mode n - 1 stops the whole loop there. */
  lemma {:induction false} ReadStops(settings: Value, t: Tabs, n: nat)
    requires |t.forms| == 2 && |t.spin| == 2 && 1 <= n <= 2
    requires ReadFrom(settings, t, n).1.Raise?
    ensures ReadFrom(settings, t, 2) == ReadFrom(settings, t, n)
  {
  }

  /** One more iteration of the read loop, after the earlier ones completed. */
  lemma {:induction false} ReadNext(settings: Value, t: Tabs, n: nat)
    requires |t.forms| == 2 && |t.spin| == 2 && 1 <= n <= 2 && ReadFrom(settings, t, n - 1).1.Pass?
    ensures var prev := ReadFrom(settings, t, n - 1).0;
      var m := ModeAt(n - 1);
      && (ReadFrom(settings, t, n).1.Pass? <==> HasFormFields(settings, m))
      && (HasFormFields(settings, m) ==>
            ReadFrom(settings, t, n).0
            == Tabs(prev.forms[n - 1 := FormOf(Record(settings, m))],
                    prev.spin[n - 1 := SpinFor(Get(Record(settings, m), "enable_schedule").value)]))
  {
    var m := ModeAt(n - 1);
    if HasFormFields(settings, m) {
      FieldOf(settings, m, "enable_schedule");
    }
  }

  /**
   * `read_settings` completes exactly when both mode records are mappings
   * with the five fields; each tab then shows its record with the `or`
   * defaults, and `spin_state` follows the stored schedule flag.
   */
  lemma {:induction false} ReadComplete(settings: Value, t: Tabs)
    requires |t.forms| == 2 && |t.spin| == 2
    ensures ReadFrom(settings, t, 2).1.Pass? <==> HasFormFields(settings, Dark) && HasFormFields(settings, Light)
    ensures HasFormFields(settings, Dark) && HasFormFields(settings, Light) ==>
              ReadFrom(settings, t, 2)
              == (Tabs([FormOf(Record(settings, Dark)), FormOf(Record(settings, Light))],
                       [SpinFor(Get(Record(settings, Dark), "enable_schedule").value),
                        SpinFor(Get(Record(settings, Light), "enable_schedule").value)]), Pass)
  {
    ReadNext(settings, t, 1);
    if HasFormFields(settings, Dark) {
      ReadNext(settings, t, 2);
      if HasFormFields(settings, Light) {
        var r := ReadFrom(settings, t, 2).0;
        assert r.forms == [FormOf(Record(settings, Dark)), FormOf(Record(settings, Light))];
        assert r.spin == [SpinFor(Get(Record(settings, Dark), "enable_schedule").value),
                          SpinFor(Get(Record(settings, Light), "enable_schedule").value)];
      }
    } else {
      ReadStops(settings, t, 1);
    }
  }

  /** After a complete read, each tab's `spin_state` is read-only exactly when its schedule variable is truthy. */
  lemma {:induction false} ReadSpinMatches(settings: Value, t: Tabs)
    requires |t.forms| == 2 && |t.spin| == 2
    ensures var r := ReadFrom(settings, t, 2);
      r.1.Pass? ==> r.0.spin == [SpinFor(r.0.forms[0].enableSchedule), SpinFor(r.0.forms[1].enableSchedule)]
  {
    ReadComplete(settings, t);
  }

  /** Field lookups in the mapping of a typed mode record. */
  lemma {:induction false} EncodedLookups(md: ConfigStore.ModeSettings)
    ensures var es := ConfigStore.EncodeMode(md).entries;
      && FormFields(es)
      && Get(es, "brightness") == Some(VInt(md.brightness))
      && Get(es, "enable_schedule") == Some(VBool(md.enableSchedule))
      && Get(es, "os_theme") == Some(VInt(md.osTheme))
      && Get(es, "start_hour") == Some(md.startHour)
      && Get(es, "start_minute") == Some(md.startMinute)
      && Get(es, "wallpaper") == Some(md.wallpaper)
  {
    var es := ConfigStore.EncodeMode(md).entries;
    ConfigStore.LowKeysLookup(es);
    LowKeysRest(es);
  }

  /** The last three fields of a record with the keys of `low_keys`. */
  lemma {:induction false} LowKeysRest(es: seq<(string, Value)>)
    requires Keys(es) == ConfigStore.LowKeys
    ensures Get(es, "start_hour") == Some(es[3].1)
    ensures Get(es, "start_minute") == Some(es[4].1)
    ensures Get(es, "wallpaper") == Some(es[5].1)
  {
    assert es[3].0 == "start_hour" && es[4].0 == "start_minute" && es[5].0 == "wallpaper";
    GetAt(es, 3);
    GetAt(es, 4);
    GetAt(es, 5);
  }

  /** A tab of a typed record shows each stored field, or its default where the field is falsy. */
  function Shown(md: ConfigStore.ModeSettings): Form
  {
    Form(Or(VInt(md.brightness), VInt(0)), Or(md.wallpaper, VStr("")), Or(md.startHour, VStr("09")),
         Or(md.startMinute, VStr("30")), VBool(md.enableSchedule))
  }

  /** Reading a typed record fills both tabs and sets `spin_state` from the schedule flags. */
  lemma {:induction false} ReadEncoded(c: ConfigStore.Config, t: Tabs)
    requires |t.forms| == 2 && |t.spin| == 2
    ensures ReadFrom(ConfigStore.Encode(c), t, 2)
            == (Tabs([Shown(c.dark), Shown(c.light)],
                     [SpinFor(VBool(c.dark.enableSchedule)), SpinFor(VBool(c.light.enableSchedule))]), Pass)
  {
    var v := ConfigStore.Encode(c);
    assert Get(v.entries, ModeKey(Dark)) == Some(ConfigStore.EncodeMode(c.dark));
    assert Get(v.entries, ModeKey(Light)) == Some(ConfigStore.EncodeMode(c.light));
    EncodedLookups(c.dark);
    EncodedLookups(c.light);
    ReadComplete(v, t);
  }

  /** Reading the file the loader writes shows the default record, with both schedules off. */
  lemma {:induction false} DefaultRead(v: Value, t: Tabs)
    requires v == ConfigStore.Encode(ConfigStore.DefaultConfig())
    requires |t.forms| == 2 && |t.spin| == 2
    ensures ReadFrom(v, t, 2) == (Tabs(DefaultForms(), [Disabled, Disabled]), Pass)
  {
    var c := ConfigStore.DefaultConfig();
    ReadEncoded(c, t);
    assert Shown(c.dark) == DefaultForms()[0];
    assert Shown(c.light) == DefaultForms()[1];
  }

  /** A save that fails at mode n - 1 fails the whole loop there. */
  lemma {:induction false} SaveStops(settings: Value, forms: seq<Form>, n: nat)
    requires |forms| == 2 && 1 <= n <= 2 && SavedUpTo(settings, forms, n).Err?
    ensures SavedUpTo(settings, forms, 2) == SavedUpTo(settings, forms, n)
  {
    if n == 1 {
      var r1 := SavedUpTo(settings, forms, 1);
      assert SavedUpTo(settings, forms, 2) == Err(r1.error);
    }
  }

  /** The six assignments of one `save_settings` iteration on a mode record's entries, in source order. */
  function SaveEntries(es: seq<(string, Value)>, fm: Form, i: nat): seq<(string, Value)>
  {
    var e1 := Put(es, "brightness", fm.brightness);
    var e2 := if Truthy(fm.wallpaper) then Put(e1, "wallpaper", fm.wallpaper) else e1;
    var e3 := Put(e2, "start_hour", fm.startHour);
    var e4 := Put(e3, "os_theme", VInt(i));
    var e5 := Put(e4, "start_minute", fm.startMinute);
    Put(e5, "enable_schedule", fm.enableSchedule)
  }

  /** An assignment sets its own key and leaves every other lookup alone. */
  lemma {:induction false} PutStep(es: seq<(string, Value)>, k: string, x: Value, q: string)
    ensures Get(Put(es, k, x), q) == if q == k then Some(x) else Get(es, q)
  {
    if q == k {
      PutGet(es, k, x);
    } else {
      PutOther(es, k, x, q);
    }
  }

  /** The lookup of any key after the six assignments. */
  lemma {:induction false} SaveEntriesGet(es: seq<(string, Value)>, fm: Form, i: nat, q: string)
    ensures Get(SaveEntries(es, fm, i), q)
            == if q == "enable_schedule" then Some(fm.enableSchedule)
               else if q == "start_minute" then Some(fm.startMinute)
               else if q == "os_theme" then Some(VInt(i))
               else if q == "start_hour" then Some(fm.startHour)
               else if q == "wallpaper" && Truthy(fm.wallpaper) then Some(fm.wallpaper)
               else if q == "brightness" then Some(fm.brightness)
               else Get(es, q)
  {
    var e1 := Put(es, "brightness", fm.brightness);
    var e2 := if Truthy(fm.wallpaper) then Put(e1, "wallpaper", fm.wallpaper) else e1;
    var e3 := Put(e2, "start_hour", fm.startHour);
    var e4 := Put(e3, "os_theme", VInt(i));
    var e5 := Put(e4, "start_minute", fm.startMinute);
    PutStep(es, "brightness", fm.brightness, q);
    if Truthy(fm.wallpaper) {
      PutStep(e1, "wallpaper", fm.wallpaper, q);
    }
    PutStep(e2, "start_hour", fm.startHour, q);
    PutStep(e3, "os_theme", VInt(i), q);
    PutStep(e4, "start_minute", fm.startMinute, q);
    PutStep(e5, "enable_schedule", fm.enableSchedule, q);
  }

  /** With every field of `low_keys` present, the six assignments keep the key sequence. */
  lemma {:induction false} SaveEntriesKeys(es: seq<(string, Value)>, fm: Form, i: nat)
    requires forall k :: k in ConfigStore.LowKeys ==> k in Keys(es)
    ensures Keys(SaveEntries(es, fm, i)) == Keys(es)
  {
    assert ConfigStore.LowKeys[0] == "brightness" && ConfigStore.LowKeys[5] == "wallpaper";
    assert ConfigStore.LowKeys[3] == "start_hour" && ConfigStore.LowKeys[2] == "os_theme";
    assert ConfigStore.LowKeys[4] == "start_minute" && ConfigStore.LowKeys[1] == "enable_schedule";
    var e1 := Put(es, "brightness", fm.brightness);
    PutExisting(es, "brightness", fm.brightness);
    var e2 := if Truthy(fm.wallpaper) then Put(e1, "wallpaper", fm.wallpaper) else e1;
    if Truthy(fm.wallpaper) {
      PutExisting(e1, "wallpaper", fm.wallpaper);
    }
    var e3 := Put(e2, "start_hour", fm.startHour);
    PutExisting(e2, "start_hour", fm.startHour);
    var e4 := Put(e3, "os_theme", VInt(i));
    PutExisting(e3, "os_theme", VInt(i));
    var e5 := Put(e4, "start_minute", fm.startMinute);
    PutExisting(e4, "start_minute", fm.startMinute);
    PutExisting(e5, "enable_schedule", fm.enableSchedule);
  }

  /**
   * What `save_settings` does to one mode record: brightness, start hour,
   * start minute and schedule come from the tab and `os_theme` becomes the
   * tab's position; the wallpaper is overwritten only by a non-empty path,
   * otherwise the stored one stays; every other field is untouched, no
   * field is removed, and a record that already has the six fields gets
   * no new one.
   */
  lemma {:induction false} SaveRecordWrites(rec: Value, fm: Form, i: nat)
    requires rec.VMap?
    ensures var r := SaveRecord(rec, fm, i).value.entries;
      && Get(r, "brightness") == Some(fm.brightness)
      && Get(r, "start_hour") == Some(fm.startHour)
      && Get(r, "start_minute") == Some(fm.startMinute)
      && Get(r, "enable_schedule") == Some(fm.enableSchedule)
      && Get(r, "os_theme") == Some(VInt(i))
      && Get(r, "wallpaper") == (if Truthy(fm.wallpaper) then Some(fm.wallpaper) else Get(rec.entries, "wallpaper"))
    ensures var r := SaveRecord(rec, fm, i).value.entries;
      forall k :: k !in ConfigStore.LowKeys ==> Get(r, k) == Get(rec.entries, k)
    ensures var r := SaveRecord(rec, fm, i).value.entries;
      forall k :: k in Keys(rec.entries) ==> k in Keys(r)
    ensures (forall k :: k in ConfigStore.LowKeys ==> k in Keys(rec.entries)) ==>
              Keys(SaveRecord(rec, fm, i).value.entries) == Keys(rec.entries)
  {
    var es := rec.entries;
    var r := SaveEntries(es, fm, i);
    SaveEntriesGet(es, fm, i, "brightness");
    SaveEntriesGet(es, fm, i, "start_hour");
    SaveEntriesGet(es, fm, i, "start_minute");
    SaveEntriesGet(es, fm, i, "enable_schedule");
    SaveEntriesGet(es, fm, i, "os_theme");
    SaveEntriesGet(es, fm, i, "wallpaper");
    forall k | k !in ConfigStore.LowKeys
      ensures Get(r, k) == Get(es, k)
    {
      SaveEntriesGet(es, fm, i, k);
    }
    forall k | k in Keys(es)
      ensures k in Keys(r)
    {
      SaveEntriesGet(es, fm, i, k);
    }
    if forall k :: k in ConfigStore.LowKeys ==> k in Keys(es) {
      SaveEntriesKeys(es, fm, i);
    }
  }

  /**
   * Values of the types the tab's Tk variables hold: an IntVar brightness
   * in the scale's range 0..100, StringVar path and start fields, and a
   * BooleanVar schedule flag.
   */
  predicate TkForm(fm: Form)
  {
    && fm.brightness.VInt? && 0 <= fm.brightness.i <= 100
    && fm.wallpaper.VStr? && fm.startHour.VStr? && fm.startMinute.VStr? && fm.enableSchedule.VBool?
  }

  /** The typed mode record after `save_settings` wrote tab i into it. */
  function SavedMode(md: ConfigStore.ModeSettings, fm: Form, i: nat): ConfigStore.ModeSettings
    requires fm.brightness.VInt? && fm.enableSchedule.VBool?
  {
    ConfigStore.ModeSettings(fm.brightness.i, fm.enableSchedule.b, i, fm.startHour, fm.startMinute,
                             if Truthy(fm.wallpaper) then fm.wallpaper else md.wallpaper)
  }

  function SavedConfig(c: ConfigStore.Config, forms: seq<Form>): ConfigStore.Config
    requires |forms| == 2
    requires forms[0].brightness.VInt? && forms[0].enableSchedule.VBool?
    requires forms[1].brightness.VInt? && forms[1].enableSchedule.VBool?
  {
    ConfigStore.Config(SavedMode(c.dark, forms[0], 0), SavedMode(c.light, forms[1], 1))
  }

  /** Saving a tab into a typed record's mapping gives the mapping of the updated typed record. */
  lemma {:induction false} SaveEncodedMode(md: ConfigStore.ModeSettings, fm: Form, i: nat)
    requires fm.brightness.VInt? && fm.enableSchedule.VBool?
    ensures SaveRecord(ConfigStore.EncodeMode(md), fm, i) == Ok(ConfigStore.EncodeMode(SavedMode(md, fm, i)))
  {
    var es := ConfigStore.EncodeMode(md).entries;
    var r := SaveEntries(es, fm, i);
    SaveEntriesKeys(es, fm, i);
    ConfigStore.LowKeysLookup(r);
    LowKeysRest(r);
    ConfigStore.LowKeysLookup(es);
    LowKeysRest(es);
    SaveEntriesGet(es, fm, i, "brightness");
    SaveEntriesGet(es, fm, i, "enable_schedule");
    SaveEntriesGet(es, fm, i, "os_theme");
    SaveEntriesGet(es, fm, i, "start_hour");
    SaveEntriesGet(es, fm, i, "start_minute");
    SaveEntriesGet(es, fm, i, "wallpaper");
    ConfigStore.LowEntries(r);
  }

  /** The typed configuration with tab i written into mode i. */
  function SavedAt(c: ConfigStore.Config, fm: Form, i: nat): ConfigStore.Config
    requires fm.brightness.VInt? && fm.enableSchedule.VBool?
  {
    if i == 0 then ConfigStore.Config(SavedMode(c.dark, fm, 0), c.light)
    else ConfigStore.Config(c.dark, SavedMode(c.light, fm, 1))
  }

  /** One iteration of the `save_settings` loop on a typed record's mapping. */
  lemma {:induction false} SaveModeEncoded(c: ConfigStore.Config, fm: Form, i: nat)
    requires i < 2 && fm.brightness.VInt? && fm.enableSchedule.VBool?
    ensures SaveMode(ConfigStore.Encode(c), fm, i) == Ok(ConfigStore.Encode(SavedAt(c, fm, i)))
  {
    var es := ConfigStore.Encode(c).entries;
    var md := if i == 0 then c.dark else c.light;
    SaveEncodedMode(md, fm, i);
    assert es[0].0 != es[1].0 by { assert es[0].0[0] != es[1].0[0]; }
    GetAt(es, i);
    PutAt(es, i, ConfigStore.EncodeMode(SavedMode(md, fm, i)));
    assert es[i := (ModeKey(ModeAt(i)), ConfigStore.EncodeMode(SavedMode(md, fm, i)))]
           == ConfigStore.Encode(SavedAt(c, fm, i)).entries;
  }

  /** The whole `save_settings` loop on a typed record's mapping. */
  lemma {:induction false} SaveEncoded(c: ConfigStore.Config, forms: seq<Form>)
    requires |forms| == 2
    requires forms[0].brightness.VInt? && forms[0].enableSchedule.VBool?
    requires forms[1].brightness.VInt? && forms[1].enableSchedule.VBool?
    ensures SavedUpTo(ConfigStore.Encode(c), forms, 2) == Ok(ConfigStore.Encode(SavedConfig(c, forms)))
  {
    var v := ConfigStore.Encode(c);
    var c1 := SavedAt(c, forms[0], 0);
    SaveModeEncoded(c, forms[0], 0);
    assert SavedUpTo(v, forms, 0) == Ok(v);
    assert SavedUpTo(v, forms, 1) == Ok(ConfigStore.Encode(c1));
    SaveModeEncoded(c1, forms[1], 1);
    assert SavedAt(c1, forms[1], 1) == SavedConfig(c, forms);
  }

  /** Writing Tk-typed tabs into a valid record keeps it valid. */
  lemma {:induction false} SavedConfigValid(c: ConfigStore.Config, forms: seq<Form>)
    requires |forms| == 2 && TkForm(forms[0]) && TkForm(forms[1]) && ConfigStore.ConfigValid(c)
    ensures ConfigStore.ConfigValid(SavedConfig(c, forms))
  {
  }

  /**
   * Opening the window on a valid record whose start fields are set and
   * saving without an edit writes the same record back.
   */
  lemma {:induction false} ReadThenSave(c: ConfigStore.Config, t: Tabs)
    requires ConfigStore.ConfigValid(c) && |t.forms| == 2 && |t.spin| == 2
    requires Truthy(c.dark.startHour) && Truthy(c.dark.startMinute)
    requires Truthy(c.light.startHour) && Truthy(c.light.startMinute)
    ensures var r := ReadFrom(ConfigStore.Encode(c), t, 2);
      r.1.Pass? && SavedUpTo(ConfigStore.Encode(c), r.0.forms, 2) == Ok(ConfigStore.Encode(c))
  {
    ReadEncoded(c, t);
    var forms := [Shown(c.dark), Shown(c.light)];
    SaveEncoded(c, forms);
    SavedShown(c.dark, 0);
    SavedShown(c.light, 1);
  }

  /** A tab shown from a valid mode record with its start fields set saves back to the same record. */
  lemma {:induction false} SavedShown(md: ConfigStore.ModeSettings, i: nat)
    requires ConfigStore.ModeValid(md, i) && Truthy(md.startHour) && Truthy(md.startMinute)
    ensures SavedMode(md, Shown(md), i) == md
  {
  }

  /** A saved tab as the next read shows it: an empty path shows the path that was kept. */
  function Reread(fm: Form, md: ConfigStore.ModeSettings): Form
  {
    fm.(wallpaper := if Truthy(fm.wallpaper) then fm.wallpaper else Or(Dump(md.wallpaper), VStr("")))
  }

  /**
   * Saving Tk-typed tabs with their start fields set into a valid record,
   * then reading the file back, shows the same tabs, except that a tab
   * saved with an empty path shows the stored path, and `spin_state`
   * follows each tab's schedule flag.
   */
  lemma {:induction false} SaveThenRead(c: ConfigStore.Config, forms: seq<Form>, t: Tabs)
    requires ConfigStore.ConfigValid(c) && |forms| == 2 && TkForm(forms[0]) && TkForm(forms[1])
    requires Truthy(forms[0].startHour) && Truthy(forms[0].startMinute)
    requires Truthy(forms[1].startHour) && Truthy(forms[1].startMinute)
    requires |t.forms| == 2 && |t.spin| == 2
    ensures var e := SaveEffect(Some(ConfigStore.Encode(c)), forms);
      && e.outcome == Pass
      && ReadFrom(e.stored.value, t, 2)
         == (Tabs([Reread(forms[0], c.dark), Reread(forms[1], c.light)],
                  [SpinFor(forms[0].enableSchedule), SpinFor(forms[1].enableSchedule)]), Pass)
  {
    SaveEncoded(c, forms);
    var saved := SavedConfig(c, forms);
    ConfigStore.DumpEncoded(saved);
    var reloaded := ConfigStore.Config(ConfigStore.DumpedMode(saved.dark), ConfigStore.DumpedMode(saved.light));
    ReadEncoded(reloaded, t);
    assert Shown(reloaded.dark) == Reread(forms[0], c.dark);
    assert Shown(reloaded.light) == Reread(forms[1], c.light);
  }

  /** The schedule read from a typed record's mapping. */
  lemma {:induction false} EncodedPlan(md: ConfigStore.ModeSettings)
    requires FormatValue(md.startHour).Some? && FormatValue(md.startMinute).Some?
    ensures Reconciler.RecordPlan(ConfigStore.EncodeMode(md))
            == Some(Reconciler.Plan(FormatValue(md.startHour).value + ":" + FormatValue(md.startMinute).value,
                                    md.enableSchedule))
  {
    EncodedLookups(md);
  }

  /**
   * The task `apply_changes` leaves behind agrees with the tab's plan in
   * the corrected reconciler's sense; it is missing with its schedule off
   * exactly when it was missing before and the tab's schedule is off.
   */
  lemma {:induction false} AppliedTaskSettles(t: TaskState, fm: Form)
    requires Timed(fm)
    ensures Reconciler.Settled(AppliedTask(t, fm), FormPlan(fm))
    ensures Reconciler.MissingUnscheduled(AppliedTask(t, fm), FormPlan(fm)) <==> t.Absent? && !Truthy(fm.enableSchedule)
    ensures Truthy(fm.enableSchedule) ==> AppliedTask(t, fm) == Present(true, FormTime(fm))
  {
  }

  /**
   * Apply on a valid record: the file then holds a valid record whose
   * schedules are the tabs' own, and the tasks left behind are settled
   * against them, so the corrected `check_tasks` of the next run has
   * nothing to repair.
   */
  lemma {:induction false} ApplySettles(c: ConfigStore.Config, forms: seq<Form>, dark: TaskState, light: TaskState)
    requires ConfigStore.ConfigValid(c) && |forms| == 2 && TkForm(forms[0]) && TkForm(forms[1])
    ensures var e, ps := SaveEffect(Some(ConfigStore.Encode(c)), forms), Reconciler.Plans(FormPlan(forms[0]), FormPlan(forms[1]));
      && e.outcome == Pass && e.stored.Some?
      && ConfigStore.CheckSettings(e.stored.value)
      && Reconciler.PlansOf(e.stored.value) == Some(ps)
      && Reconciler.AllSettled(ps, AppliedTask(dark, forms[0]), AppliedTask(light, forms[1]))
  {
    SaveEncoded(c, forms);
    var saved := SavedConfig(c, forms);
    SavedConfigValid(c, forms);
    ConfigStore.EncodeValid(saved);
    ConfigStore.DumpKeepsValid(ConfigStore.Encode(saved));
    ConfigStore.DumpEncoded(saved);
    ReloadedPlans(c, forms);
    AppliedTaskSettles(dark, forms[0]);
    AppliedTaskSettles(light, forms[1]);
  }

  /** The plans the next load reads back from the saved tabs are the tabs' own. */
  lemma {:induction false} ReloadedPlans(c: ConfigStore.Config, forms: seq<Form>)
    requires |forms| == 2 && TkForm(forms[0]) && TkForm(forms[1])
    ensures var saved := SavedConfig(c, forms);
      Reconciler.PlansOf(ConfigStore.Encode(ConfigStore.Config(ConfigStore.DumpedMode(saved.dark), ConfigStore.DumpedMode(saved.light))))
      == Some(Reconciler.Plans(FormPlan(forms[0]), FormPlan(forms[1])))
  {
    var saved := SavedConfig(c, forms);
    var v := ConfigStore.Encode(ConfigStore.Config(ConfigStore.DumpedMode(saved.dark), ConfigStore.DumpedMode(saved.light)));
    assert v.entries[0].0 != v.entries[1].0 by { assert v.entries[0].0[0] != v.entries[1].0[0]; }
    GetAt(v.entries, 0);
    GetAt(v.entries, 1);
    SavedPlan(c.dark, forms[0], 0);
    SavedPlan(c.light, forms[1], 1);
  }

  /** The plan of a saved tab's record, after the dump and the next load. */
  lemma {:induction false} SavedPlan(md: ConfigStore.ModeSettings, fm: Form, i: nat)
    requires TkForm(fm)
    ensures Reconciler.RecordPlan(ConfigStore.EncodeMode(ConfigStore.DumpedMode(SavedMode(md, fm, i)))) == Some(FormPlan(fm))
  {
    var d := ConfigStore.DumpedMode(SavedMode(md, fm, i));
    assert d.startHour == fm.startHour && d.startMinute == fm.startMinute;
    assert d.enableSchedule == Truthy(fm.enableSchedule);
    EncodedPlan(d);
  }

  /** One iteration of the `apply_changes` loop, for tab c. */
  method ApplyTab(s: Scheduler, c: nat, fm: Form)
    requires c < 2 && Timed(fm)
    modifies s
    ensures c == 0 ==> s.dark == AppliedTask(old(s.dark), fm) && s.light == old(s.light)
    ensures c == 1 ==> s.light == AppliedTask(old(s.light), fm) && s.dark == old(s.dark)
    ensures s.log == old(s.log) + TabCommands(fm, ModeAt(c))
  {
    var time := FormTime(fm);
    var times := Reconciler.StartTimes(c, time);
    if Truthy(fm.enableSchedule) {
      s.ChangeTaskState(c, Enable);
      s.CreateTask(times.0, times.1);
    } else {
      s.ChangeTaskState(c, Disable);
    }
  }

  /** The Tk-variable part of a `Settings` window. */
  class Settings {
    /** The five variables of each tab, dark first. */
    var forms: seq<Form>
    /** `spin_state`: the state `read_settings` chose for each tab's spinboxes. */
    var spinState: seq<SpinState>
    /** The state the hour and minute spinboxes of each tab are configured with. */
    var spinboxes: seq<SpinState>

    predicate Valid()
      reads this
    {
      |forms| == 2 && |spinState| == 2 && |spinboxes| == 2
    }

    /** The variables as `__init__` creates them: IntVar 0, StringVar "", BooleanVar False. */
    constructor ()
      ensures Valid()
      ensures forms == [Form(VInt(0), VStr(""), VStr(""), VStr(""), VBool(false)),
                        Form(VInt(0), VStr(""), VStr(""), VStr(""), VBool(false))]
      ensures spinState == [Disabled, Disabled] && spinboxes == [Normal, Normal]
    {
      forms := [Form(VInt(0), VStr(""), VStr(""), VStr(""), VBool(false)),
                Form(VInt(0), VStr(""), VStr(""), VStr(""), VBool(false))];
      spinState := [Disabled, Disabled];
      spinboxes := [Normal, Normal];
    }

    /**
     * `read_settings`: each tab is filled from the loaded record with the
     * `or` defaults, and `spin_state` follows the stored schedule flag. A
     * missing file is created by the loader (`functions.load_settings` in
     * the package, `load_settings` of theme_switch.py in the old script,
     * chosen by `legacy`) and the read is retried, which then shows the
     * default record. A failed lookup escapes.
     */
    method ReadSettings(f: ConfigStore.SettingsFile, legacy: bool) returns (r: Outcome)
      requires Valid()
      modifies this, f
      decreases if f.stored.None? then 1 else 0
      ensures Valid() && spinboxes == old(spinboxes)
      ensures old(f.stored).Some? ==> f.stored == old(f.stored) && f.writes == old(f.writes)
      ensures old(f.stored).None? ==>
                f.stored == Some(Dump(ConfigStore.DefaultSettings()))
                && f.writes == old(f.writes) + [Dump(ConfigStore.DefaultSettings())]
      ensures f.stored.Some? && ReadFrom(f.stored.value, Tabs(old(forms), old(spinState)), 2) == (Tabs(forms, spinState), r)
      ensures old(f.stored).None? ==> r.Pass? && forms == DefaultForms() && spinState == [Disabled, Disabled]
    {
      if f.stored.None? {
        if legacy {
          var loaded := LegacyConfigStore.LegacyLoadSettings(f);
        } else {
          var loaded := ConfigStore.LoadSettings(f);
        }
        ConfigStore.DumpedDefault();
        DefaultRead(f.stored.value, Tabs(forms, spinState));
        r := ReadSettings(f, legacy);
        return;
      }
      var settings := f.stored.value;
      for i := 0 to 2
        modifies this
        invariant Valid() && spinboxes == old(spinboxes)
        invariant ReadFrom(settings, Tabs(old(forms), old(spinState)), i) == (Tabs(forms, spinState), Pass)
      {
        var tab := ReadTab(settings, ModeAt(i), forms[i]);
        forms := forms[i := tab.0];
        if tab.1.Raise? {
          ReadStops(settings, Tabs(old(forms), old(spinState)), i + 1);
          return tab.1;
        }
        spinState := spinState[i := SpinFor(Field(settings, ModeAt(i), "enable_schedule").value)];
      }
      r := Pass;
    }

    /**
     * `initialize_interface`: read the settings, then configure both
     * spinboxes of each tab with `spin_state`, so on load a tab's spinboxes
     * are read-only exactly when its schedule box is ticked.
     */
    method Open(f: ConfigStore.SettingsFile, legacy: bool) returns (r: Outcome)
      requires Valid()
      modifies this, f
      ensures Valid()
      ensures f.stored.Some? && ReadFrom(f.stored.value, Tabs(old(forms), old(spinState)), 2) == (Tabs(forms, spinState), r)
      ensures r.Pass? ==> spinboxes == [SpinFor(forms[0].enableSchedule), SpinFor(forms[1].enableSchedule)]
      ensures r.Raise? ==> spinboxes == old(spinboxes)
    {
      ghost var before := Tabs(forms, spinState);
      r := ReadSettings(f, legacy);
      if r.Pass? {
        ReadSpinMatches(f.stored.value, before);
        spinboxes := spinState;
      }
    }

    /** `update_spin(i)`: after the schedule box of tab i is toggled, its spinboxes follow it. */
    method UpdateSpin(i: nat)
      requires Valid() && i < 2
      modifies this
      ensures Valid() && forms == old(forms) && spinState == old(spinState)
      ensures spinboxes == old(spinboxes)[i := SpinFor(forms[i].enableSchedule)]
    {
      spinboxes := spinboxes[i := SpinFor(forms[i].enableSchedule)];
    }

    /** `save_settings`, against `SaveEffect`. */
    method SaveSettings(f: ConfigStore.SettingsFile) returns (r: Outcome)
      requires Valid()
      modifies f
      ensures var e := SaveEffect(old(f.stored), forms);
        r == e.outcome && f.stored == e.stored && f.writes == old(f.writes) + e.written
    {
      if f.stored.None? {
        return Raise(FileNotFoundError);
      }
      var settings := f.stored.value;
      ghost var loaded := settings;
      f.Truncate();
      for i := 0 to 2
        invariant SavedUpTo(loaded, forms, i) == Ok(settings)
        invariant f.stored == Some(VNull) && f.writes == old(f.writes) + [VNull]
      {
        var next := SaveMode(settings, forms[i], i);
        if next.Err? {
          SaveStops(loaded, forms, i + 1);
          return Raise(next.error);
        }
        settings := next.value;
      }
      f.Write(settings);
      r := Pass;
    }

    /**
     * `apply_changes`: save first (an exception stops everything), then for
     * each tab either ENABLE followed by a create of that mode's task only,
     * at the tab's "hour:minute", or only DISABLE. The confirmation box is
     * not modelled.
     */
    method ApplyChanges(f: ConfigStore.SettingsFile, s: Scheduler) returns (r: Outcome)
      requires Valid() && Timed(forms[0]) && Timed(forms[1])
      modifies f, s
      ensures var e := SaveEffect(old(f.stored), forms);
        r == e.outcome && f.stored == e.stored && f.writes == old(f.writes) + e.written
      ensures r.Raise? ==> s.dark == old(s.dark) && s.light == old(s.light) && s.log == old(s.log)
      ensures r.Pass? ==>
                && s.dark == AppliedTask(old(s.dark), forms[0]) && s.light == AppliedTask(old(s.light), forms[1])
                && s.log == old(s.log) + TabCommands(forms[0], Dark) + TabCommands(forms[1], Light)
    {
      r := SaveSettings(f);
      if r.Raise? {
        return;
      }
      for c := 0 to 2
        modifies s
        invariant s.dark == if c >= 1 then AppliedTask(old(s.dark), forms[0]) else old(s.dark)
        invariant s.light == if c >= 2 then AppliedTask(old(s.light), forms[1]) else old(s.light)
        invariant s.log == old(s.log) + (if c >= 1 then TabCommands(forms[0], Dark) else [])
                                      + (if c >= 2 then TabCommands(forms[1], Light) else [])
      {
        ApplyTab(s, c, forms[c]);
      }
    }
  }
}
