/**
 * `check_tasks(settings)` of the stand-alone script `theme_switch.py`. Here
 * the scheduler wins: a missing task is created whatever the schedule flag
 * says, and the settings of an existing task are brought in line with the
 * task and written back to settings.yaml. No task is ever corrected.
 */
module LegacyReconciler {
  import opened Wrappers
  import opened PyValue
  import opened PyText
  import opened Modes
  import opened TaskScheduler
  import opened Reconciler
  import opened ConfigStore
  import LegacyConfigStore

  /** `settings[mode]` exists and is a mapping. */
  predicate HasModeRecord(v: Value, m: Mode)
  {
    v.VMap? && Get(v.entries, ModeKey(m)).Some? && Get(v.entries, ModeKey(m)).value.VMap?
  }

  /** The entries of `settings[mode]`. */
  function ModeRecordOf(v: Value, m: Mode): seq<(string, Value)>
    requires HasModeRecord(v, m)
  {
    Get(v.entries, ModeKey(m)).value.entries
  }

  /** The plan of a mode is the plan of its record. */
  lemma PlanOfRecord(v: Value, m: Mode)
    requires HasModeRecord(v, m)
    ensures PlanOf(v, m) == RecordPlan(VMap(ModeRecordOf(v, m)))
  {
  }

  /** A mode whose plan can be read has a record that is a mapping. */
  lemma PlanHasRecord(v: Value, m: Mode)
    requires PlanOf(v, m).Some?
    ensures HasModeRecord(v, m)
  {
    var rec := PyValue.Index(v, ModeKey(m)).value;
    assert PyValue.Index(rec, "start_hour").Ok?;
  }

  /** Assigning to one mode's record keeps the top-level keys and the other mode's record. */
  lemma PutModeRecord(es: seq<(string, Value)>, m: Mode, x: Value)
    requires Get(es, ModeKey(m)).Some?
    ensures Keys(Put(es, ModeKey(m), x)) == Keys(es)
    ensures Get(Put(es, ModeKey(m), x), ModeKey(m)) == Some(x)
    ensures Get(Put(es, ModeKey(m), x), ModeKey(Other(m))) == Get(es, ModeKey(Other(m)))
  {
    assert ModeKey(Other(m))[0] != ModeKey(m)[0];
    PutExisting(es, ModeKey(m), x);
    PutOther(es, ModeKey(m), x, ModeKey(Other(m)));
  }

  /** `settings[mode][key] = x`: the mode record is updated in place, nothing else moves. */
  function SetModeField(v: Value, m: Mode, key: string, x: Value): (r: Value)
    requires HasModeRecord(v, m)
    ensures r.VMap?
    ensures Get(r.entries, ModeKey(m)) == Some(VMap(Put(ModeRecordOf(v, m), key, x)))
    ensures Get(r.entries, ModeKey(Other(m))) == Get(v.entries, ModeKey(Other(m)))
  {
    PutModeRecord(v.entries, m, VMap(Put(ModeRecordOf(v, m), key, x)));
    VMap(Put(v.entries, ModeKey(m), VMap(Put(ModeRecordOf(v, m), key, x))))
  }

  /** A mode record's plan is read from its three schedule fields alone. */
  lemma RecordPlanFromFields(es: seq<(string, Value)>, h: Value, mi: Value, e: bool)
    requires Get(es, "start_hour") == Some(h) && Get(es, "start_minute") == Some(mi)
    requires Get(es, "enable_schedule") == Some(VBool(e))
    ensures RecordPlan(VMap(es)) == if FormatValue(h).Some? && FormatValue(mi).Some?
                                    then Some(Plan(FormatValue(h).value + ":" + FormatValue(mi).value, e)) else None
  {
  }

  /** The schedule fields of a record whose plan can be read. */
  lemma RecordPlanFields(es: seq<(string, Value)>)
    requires RecordPlan(VMap(es)).Some?
    ensures Get(es, "start_hour").Some? && Get(es, "start_minute").Some?
    ensures Get(es, "enable_schedule") == Some(VBool(RecordPlan(VMap(es)).value.enabled))
    ensures RecordPlan(VMap(es)).value.time
            == FormatValue(Get(es, "start_hour").value).value + ":" + FormatValue(Get(es, "start_minute").value).value
  {
  }

  /** In a mode record, overwriting `enable_schedule` changes the flag and keeps the start time. */
  lemma RecordWithFlag(es: seq<(string, Value)>, b: bool)
    requires RecordPlan(VMap(es)).Some?
    ensures RecordPlan(VMap(Put(es, "enable_schedule", VBool(b)))) == Some(Plan(RecordPlan(VMap(es)).value.time, b))
  {
    var es' := Put(es, "enable_schedule", VBool(b));
    RecordPlanFields(es);
    PutExisting(es, "enable_schedule", VBool(b));
    PutOther(es, "enable_schedule", VBool(b), "start_hour");
    PutOther(es, "enable_schedule", VBool(b), "start_minute");
    RecordPlanFromFields(es', Get(es, "start_hour").value, Get(es, "start_minute").value, b);
  }

  /** Overwriting both start fields leaves `enable_schedule` alone. */
  lemma PutStartFields(es: seq<(string, Value)>, h: string, mi: string)
    requires Get(es, "start_hour").Some? && Get(es, "start_minute").Some?
    ensures var es' := Put(Put(es, "start_hour", VStr(h)), "start_minute", VStr(mi));
      && Get(es', "start_hour") == Some(VStr(h)) && Get(es', "start_minute") == Some(VStr(mi))
      && Get(es', "enable_schedule") == Get(es, "enable_schedule")
  {
    var es1 := Put(es, "start_hour", VStr(h));
    PutExisting(es, "start_hour", VStr(h));
    PutOther(es, "start_hour", VStr(h), "enable_schedule");
    PutOther(es1, "start_minute", VStr(mi), "start_hour");
    PutOther(es1, "start_minute", VStr(mi), "enable_schedule");
    PutOther(es, "start_hour", VStr(h), "start_minute");
    PutExisting(es1, "start_minute", VStr(mi));
  }

  /** In a mode record, overwriting both start fields with strings sets the start time and keeps the flag. */
  lemma RecordWithStart(es: seq<(string, Value)>, h: string, mi: string)
    requires RecordPlan(VMap(es)).Some?
    ensures RecordPlan(VMap(Put(Put(es, "start_hour", VStr(h)), "start_minute", VStr(mi))))
            == Some(Plan(h + ":" + mi, RecordPlan(VMap(es)).value.enabled))
  {
    RecordPlanFields(es);
    PutStartFields(es, h, mi);
    RecordPlanFromFields(Put(Put(es, "start_hour", VStr(h)), "start_minute", VStr(mi)), VStr(h), VStr(mi),
                         RecordPlan(VMap(es)).value.enabled);
  }

  /** Assigning to a field of one mode leaves the other mode's plan alone. */
  lemma SetFieldKeepsOther(v: Value, m: Mode, key: string, x: Value)
    requires HasModeRecord(v, m)
    ensures PlanOf(SetModeField(v, m, key, x), Other(m)) == PlanOf(v, Other(m))
  {
  }

  /** Overwriting `enable_schedule` changes that mode's schedule flag and nothing else a plan reads. */
  lemma SetScheduleFlag(v: Value, m: Mode, b: bool)
    requires PlanOf(v, m).Some?
    ensures HasModeRecord(v, m)
    ensures PlanOf(SetModeField(v, m, "enable_schedule", VBool(b)), m) == Some(Plan(PlanOf(v, m).value.time, b))
    ensures PlanOf(SetModeField(v, m, "enable_schedule", VBool(b)), Other(m)) == PlanOf(v, Other(m))
  {
    PlanHasRecord(v, m);
    PlanOfRecord(v, m);
    var v' := SetModeField(v, m, "enable_schedule", VBool(b));
    RecordWithFlag(ModeRecordOf(v, m), b);
    PlanOfRecord(v', m);
    SetFieldKeepsOther(v, m, "enable_schedule", VBool(b));
  }

  /** Overwriting both start fields with two strings makes them the mode's start time. */
  lemma SetStartFields(v: Value, m: Mode, h: string, mi: string)
    requires PlanOf(v, m).Some?
    ensures HasModeRecord(v, m)
    ensures var v' := SetModeField(SetModeField(v, m, "start_hour", VStr(h)), m, "start_minute", VStr(mi));
      && PlanOf(v', m) == Some(Plan(h + ":" + mi, PlanOf(v, m).value.enabled))
      && PlanOf(v', Other(m)) == PlanOf(v, Other(m))
  {
    PlanHasRecord(v, m);
    PlanOfRecord(v, m);
    var v1 := SetModeField(v, m, "start_hour", VStr(h));
    var v2 := SetModeField(v1, m, "start_minute", VStr(mi));
    RecordWithStart(ModeRecordOf(v, m), h, mi);
    PlanOfRecord(v2, m);
    SetFieldKeepsOther(v, m, "start_hour", VStr(h));
    SetFieldKeepsOther(v1, m, "start_minute", VStr(mi));
  }

  /** Plans read again after one mode's plan changed while the other's stayed. */
  lemma ReplanOne(v: Value, v': Value, m: Mode, p: Plan)
    requires Reconcilable(v) && p.time != "" && Token(p.time)
    requires PlanOf(v', m) == Some(p) && PlanOf(v', Other(m)) == PlanOf(v, Other(m))
    ensures Reconcilable(v')
    ensures PlansOf(v').value.For(m) == p
    ensures PlansOf(v').value.For(Other(m)) == PlansOf(v).value.For(Other(m))
  {
  }

  /**
   * `if state != settings[mode]['enable_schedule']: settings[mode]['enable_schedule'] = state`:
   * afterwards the flag is `state` and the start time is untouched.
   */
  function WithFlag(v: Value, m: Mode, b: bool): (r: Value)
    requires PlanOf(v, m).Some?
    ensures PlanOf(r, m) == Some(Plan(PlanOf(v, m).value.time, b))
    ensures PlanOf(r, Other(m)) == PlanOf(v, Other(m))
    ensures PlanOf(v, m).value.enabled == b ==> r == v
  {
    if PlanOf(v, m).value.enabled == b then v
    else
      SetScheduleFlag(v, m, b);
      SetModeField(v, m, "enable_schedule", VBool(b))
  }

  /** The task after a pass: a missing one is created enabled at the configured time, an existing one is kept. */
  function Adopted(t: TaskState, p: Plan): (t': TaskState)
    ensures t'.Present?
    ensures t.Present? ==> t' == t
    ensures t.Absent? ==> t'.enabled && t'.time == p.time
  {
    if t.Absent? then Present(true, p.time) else t
  }

  /** The schedule flag the settings hold after a pass: an existing task's state wins. */
  function AdoptedFlag(t: TaskState, p: Plan): bool
  {
    if t.Present? then t.enabled else p.enabled
  }

  /** An enabled task whose daily start is not the configured time. */
  predicate TimeConflict(t: TaskState, p: Plan)
  {
    t.Present? && t.enabled && t.time != p.time
  }

  /** The create command a pass issues for a missing task. */
  function CreatesFor(m: Mode, t: TaskState, p: Plan): seq<Command>
  {
    if t.Absent? then [Create(m, p.time)] else []
  }

  /** The settings.yaml write a pass makes: only an existing task's pass writes. */
  function WritesFor(v: Value, t: TaskState): seq<Value>
  {
    if t.Present? then [YamlDump.Dump(v)] else []
  }

  /**
   * The `start_time = time[:-3]` branch as written: when the next-run time
   * differs from the configured one, the slice is taken of the token list,
   * not of the time, and `split` on the resulting list raises
   * AttributeError. The branch never yields an hour and a minute.
   */
  function TimeOverwrite(time: seq<string>, startTime: string): (r: Result<Option<(string, string)>, PyError>)
    ensures r.Ok? ==> r.value.None?
    ensures r.Err? <==> |time| > 1 && DropLast(time[1], 3) != startTime
    ensures r.Err? ==> r.error == AttributeError
  {
    if |time| > 1 && DropLast(time[1], 3) != startTime then Err(AttributeError) else Ok(None)
  }

  /**
   * The same branch as evidently intended: the hour and the minute are the
   * first two `:`-separated pieces of the next-run time `time[1][:-3]`; a
   * time without a colon has no second piece and raises IndexError.
   */
  function AdoptTime(time: seq<string>, startTime: string): (r: Result<Option<(string, string)>, PyError>)
    ensures r.Err? ==> r.error == IndexError
    ensures r.Err? <==> |time| > 1 && DropLast(time[1], 3) != startTime && |Split(DropLast(time[1], 3), ':')| < 2
    ensures r.Ok? && r.value.Some? <==> |time| > 1 && DropLast(time[1], 3) != startTime && |Split(DropLast(time[1], 3), ':')| >= 2
  {
    if |time| > 1 && DropLast(time[1], 3) != startTime then
      var parts := Split(DropLast(time[1], 3), ':');
      if |parts| < 2 then Err(IndexError) else Ok(Some((parts[0], parts[1])))
    else Ok(None)
  }

  /** A clock time "HH:MM": exactly one colon. */
  predicate ClockTime(t: string)
  {
    |Split(t, ':')| == 2
  }

  /** A time with a colon has an hour piece and a minute piece. */
  predicate HasColon(t: string)
  {
    |Split(t, ':')| >= 2
  }

  /** What the corrected branch writes back: `hour + ":" + minute`. */
  function StartOf(t: string): (r: string)
    requires HasColon(t)
    ensures ClockTime(t) ==> r == t
  {
    var parts := Split(t, ':');
    JoinSplit(t, ':');
    assert |parts| == 2 ==> Join(parts[1..], ':') == parts[1];
    parts[0] + ":" + parts[1]
  }

  /** The pieces of a split hold only characters of the split text. */
  lemma {:induction false} SplitPiecesWithin(s: string, sep: char)
    ensures forall k, c :: 0 <= k < |Split(s, sep)| && c in Split(s, sep)[k] ==> c in s
  {
    if s != [] {
      SplitPiecesWithin(s[1..], sep);
      var rest := Split(s[1..], sep);
      forall k, c | 0 <= k < |Split(s, sep)| && c in Split(s, sep)[k]
        ensures c in s
      {
        if s[0] == sep {
          if k > 0 {
            assert Split(s, sep)[k] == rest[k - 1];
            assert c in s[1..];
          }
        } else if k == 0 {
          assert Split(s, sep)[0] == [s[0]] + rest[0];
          if c != s[0] {
            assert c in rest[0];
            assert c in s[1..];
          }
        } else {
          assert Split(s, sep)[k] == rest[k];
          assert c in s[1..];
        }
      }
    }
  }

  /** The corrected branch writes back a start time that survives a query. */
  lemma StartOfToken(t: string)
    requires HasColon(t) && Token(t)
    ensures StartOf(t) != "" && Token(StartOf(t))
  {
    SplitPiecesWithin(t, ':');
    var parts := Split(t, ':');
    assert forall c :: c in parts[0] ==> c in t;
    assert forall c :: c in parts[1] ==> c in t;
  }

  /**
   * The discrepancy: for an enabled task whose daily start is any other
   * time than the configured one, the branch meant to adopt the
   * scheduler's time raises instead.
   */
  lemma TimeOverwriteRaises(date: string, t: string, startTime: string)
    requires t != startTime
    ensures TimeOverwrite(FieldsOf(date, Present(true, t)).time, startTime) == Err(AttributeError)
  {
    assert DropLast(t + ":00", 3) == t;
  }

  /** The corrected branch adopts the scheduler's clock time exactly. */
  lemma AdoptTimeRoundTrip(date: string, t: string, startTime: string)
    requires t != startTime && ClockTime(t)
    ensures var r := AdoptTime(FieldsOf(date, Present(true, t)).time, startTime);
      r.Ok? && r.value.Some? && r.value.value.0 + ":" + r.value.value.1 == t
  {
    assert DropLast(t + ":00", 3) == t;
    assert StartOf(t) == t;
  }

  /**
   * The settings after the script's pass over mode `m` whose task was `t`:
   * untouched for a missing task, the flag taken from an existing one.
   */
  function Mirrored(v: Value, m: Mode, t: TaskState): (r: Value)
    requires PlanOf(v, m).Some?
    ensures PlanOf(r, m) == Some(Plan(PlanOf(v, m).value.time, AdoptedFlag(t, PlanOf(v, m).value)))
    ensures PlanOf(r, Other(m)) == PlanOf(v, Other(m))
    ensures t.Absent? ==> r == v
  {
    if t.Absent? then v else WithFlag(v, m, t.enabled)
  }

  /**
   * The settings once both passes are through: each mode keeps its start
   * time, and each existing task's state becomes its `enable_schedule`.
   */
  function LegacyResult(settings: Value, dark: TaskState, light: TaskState): (r: Value)
    requires Reconcilable(settings)
    ensures Reconcilable(r)
    ensures var ps := PlansOf(settings).value;
      PlansOf(r) == Some(Plans(Plan(ps.dark.time, AdoptedFlag(dark, ps.dark)), Plan(ps.light.time, AdoptedFlag(light, ps.light))))
  {
    var ps := PlansOf(settings).value;
    var v1 := Mirrored(settings, Dark, dark);
    ReplanOne(settings, v1, Dark, Plan(ps.dark.time, AdoptedFlag(dark, ps.dark)));
    var v2 := Mirrored(v1, Light, light);
    ReplanOne(v1, v2, Light, Plan(ps.light.time, AdoptedFlag(light, ps.light)));
    v2
  }

  /** On a parsed query the time branch fires exactly for an enabled task at another time. */
  lemma OverwriteOnTask(date: string, t: TaskState, p: Plan)
    requires t.Present?
    ensures TimeOverwrite(FieldsOf(date, t).time, p.time).Err? <==> TimeConflict(t, p)
  {
    if t.enabled {
      assert DropLast(t.time + ":00", 3) == t.time;
    }
  }

  /** `settings[mode]` holds both start fields, so the f-strings of the pass find them. */
  predicate HasStart(v: Value, m: Mode)
    requires HasModeRecord(v, m)
  {
    Get(ModeRecordOf(v, m), "start_hour").Some? && Get(ModeRecordOf(v, m), "start_minute").Some?
  }

  /** When both start fields are there, they format to a start time that survives a query. */
  predicate StartText(v: Value, m: Mode)
    requires HasModeRecord(v, m)
  {
    HasStart(v, m) ==> PlanOf(v, m).Some? && Token(PlanOf(v, m).value.time)
  }

  /** A mode the script's pass is modelled on: a mapping with a bool `enable_schedule` and a usable start text. */
  predicate PassReady(v: Value, m: Mode)
  {
    && HasModeRecord(v, m)
    && Get(ModeRecordOf(v, m), "enable_schedule").Some? && Get(ModeRecordOf(v, m), "enable_schedule").value.VBool?
    && StartText(v, m)
  }

  /**
   * The exception one pass raises, if any: KeyError at a missing start
   * field (the f-string for a missing task, or the one after the query for
   * an existing task), else AttributeError at a time conflict.
   */
  function PassError(v: Value, m: Mode, t: TaskState): Option<PyError>
    requires PassReady(v, m)
  {
    if !HasStart(v, m) then Some(KeyError)
    else if TimeConflict(t, PlanOf(v, m).value) then Some(AttributeError)
    else None
  }

  /** A readable plan has a colon, so it is never empty. */
  lemma PlanNotEmpty(v: Value, m: Mode)
    requires PlanOf(v, m).Some?
    ensures PlanOf(v, m).value.time != ""
  {
    assert ':' in PlanOf(v, m).value.time;
  }

  /**
   * A record the script's validator accepts has both modes as mappings with
   * a bool flag, so a pass over it is modelled whenever the start fields
   * that are present format to a usable start text.
   */
  lemma AcceptedReady(v: Value)
    requires LegacyConfigStore.LegacyCheckSettings(v) == Ok(Some(v))
    ensures HasModeRecord(v, Dark) && HasModeRecord(v, Light)
    ensures StartText(v, Dark) && StartText(v, Light) ==> PassReady(v, Dark) && PassReady(v, Light)
  {
    var es := v.entries;
    assert es[0].0 != es[1].0 by { assert es[0].0[0] != es[1].0[0]; }
    GetAt(es, 0);
    GetAt(es, 1);
  }

  /** Both passes find their start fields: the plans are readable and survive a query. */
  lemma StartedReconcilable(v: Value)
    requires PassReady(v, Dark) && PassReady(v, Light) && HasStart(v, Dark) && HasStart(v, Light)
    ensures Reconcilable(v)
  {
    PlanNotEmpty(v, Dark);
    PlanNotEmpty(v, Light);
  }

  /** The pass over one mode leaves the other mode's record, and so its pass, as they were. */
  lemma MirroredKeepsOther(v: Value, m: Mode, t: TaskState, t': TaskState)
    requires PlanOf(v, m).Some? && PassReady(v, Other(m))
    ensures PassReady(Mirrored(v, m, t), Other(m))
    ensures PassError(Mirrored(v, m, t), Other(m), t') == PassError(v, Other(m), t')
  {
    var r := Mirrored(v, m, t);
    if t.Present? && PlanOf(v, m).value.enabled != t.enabled {
      PlanHasRecord(v, m);
      PutModeRecord(v.entries, m, VMap(Put(ModeRecordOf(v, m), "enable_schedule", VBool(t.enabled))));
    }
    assert ModeRecordOf(r, Other(m)) == ModeRecordOf(v, Other(m));
  }

  /**
   * The branch for a missing task: `create_task(*values)` with only the
   * mode's own slot filled, so only that task is created, enabled at the
   * configured time.
   */
  method CreateMissing(p: Plan, s: Scheduler, i: nat)
    requires p.time != "" && Token(p.time) && s.WellFormed() && i < 2 && s.Task(ModeAt(i)).Absent?
    modifies s
    ensures s.WellFormed()
    ensures s.Task(ModeAt(i)) == Present(true, p.time)
    ensures s.Task(Other(ModeAt(i))) == old(s.Task(Other(ModeAt(i))))
    ensures s.log == old(s.log) + [Create(ModeAt(i), p.time)]
  {
    var values := StartTimes(i, p.time);
    s.CreateTask(values.0, values.1);
  }

  /**
   * One pass of the loop for the mode at position `i`. A missing task is
   * created at the configured time, whatever `enable_schedule` says, and
   * nothing is written; a record without a start field raises KeyError
   * before anything takes effect.
   */
  method LegacyPass(settings: Value, s: Scheduler, f: SettingsFile, i: nat) returns (r: Result<Value, PyError>)
    requires i < 2 && PassReady(settings, ModeAt(i)) && s.WellFormed()
    modifies s, f
    ensures s.WellFormed()
    ensures r.Err? <==> PassError(settings, ModeAt(i), old(s.Task(ModeAt(i)))).Some?
    ensures r.Err? ==> r.error == PassError(settings, ModeAt(i), old(s.Task(ModeAt(i)))).value
                       && s.dark == old(s.dark) && s.light == old(s.light)
                       && s.log == old(s.log) && f.stored == old(f.stored) && f.writes == old(f.writes)
    ensures r.Ok? ==> var m, t, p := ModeAt(i), old(s.Task(ModeAt(i))), PlanOf(settings, ModeAt(i)).value;
      && s.Task(m) == Adopted(t, p)
      && s.Task(Other(m)) == old(s.Task(Other(m)))
      && s.log == old(s.log) + CreatesFor(m, t, p)
      && r.value == Mirrored(settings, m, t)
      && f.writes == old(f.writes) + WritesFor(r.value, t)
      && f.stored == (if t.Present? then Some(YamlDump.Dump(r.value)) else old(f.stored))
    ensures f.stored == if |f.writes| == |old(f.writes)| then old(f.stored) else Some(f.writes[|f.writes| - 1])
  {
    ProbeReportsPresence(s.Task(ModeAt(i)));
    if !TaskExists(s.Probe(ModeAt(i))) {
      if !HasStart(settings, ModeAt(i)) {
        return Err(KeyError);
      }
      PlanNotEmpty(settings, ModeAt(i));
      CreateMissing(PlanOf(settings, ModeAt(i)).value, s, i);
      return Ok(settings);
    }
    r := ExistingPass(settings, s, f, i);
  }

  /**
   * The query branch for an existing task: a missing start field raises
   * KeyError after the query; the time branch raises when the task is
   * enabled at another time; otherwise `enable_schedule` takes the task's
   * state and the settings are written back.
   */
  method ExistingPass(settings: Value, s: Scheduler, f: SettingsFile, i: nat) returns (r: Result<Value, PyError>)
    requires i < 2 && PassReady(settings, ModeAt(i)) && s.WellFormed() && s.Task(ModeAt(i)).Present?
    modifies f
    ensures r.Err? <==> PassError(settings, ModeAt(i), s.Task(ModeAt(i))).Some?
    ensures r.Err? ==> r.error == PassError(settings, ModeAt(i), s.Task(ModeAt(i))).value
                       && f.stored == old(f.stored) && f.writes == old(f.writes)
    ensures r.Ok? ==>
      && r.value == Mirrored(settings, ModeAt(i), s.Task(ModeAt(i)))
      && f.writes == old(f.writes) + [YamlDump.Dump(r.value)]
      && f.stored == Some(YamlDump.Dump(r.value))
  {
    var m := ModeAt(i);
    var query := ReadQuery(s, m);
    var fields := query.value;
    if !HasStart(settings, m) {
      return Err(KeyError);
    }
    var plan := PlanOf(settings, m).value;
    OverwriteOnTask(s.date, s.Task(m), plan);
    var overwrite := TimeOverwrite(fields.time, plan.time);
    if overwrite.Err? {
      return Err(overwrite.error);
    }
    var updated := WithFlag(settings, m, fields.taskEnabled);
    f.Write(updated);
    r := Ok(updated);
  }

  /**
   * `check_tasks(settings)` of theme_switch.py as written, on a record its
   * own validator accepted. A pass raises KeyError when its mode record
   * lacks a start field, and AttributeError when its task is enabled at
   * another time than the record says, after the passes before it have
   * taken effect. Otherwise every task exists afterwards, the missing ones
   * created enabled at the configured time, and the settings returned (the
   * caller's mapping, changed in place) carry each existing task's state as
   * `enable_schedule`, and are dumped to settings.yaml once per existing task.
   */
  method LegacyCheckTasks(settings: Value, s: Scheduler, f: SettingsFile) returns (r: Result<Value, PyError>)
    requires LegacyConfigStore.LegacyCheckSettings(settings) == Ok(Some(settings))
    requires PassReady(settings, Dark) && PassReady(settings, Light) && s.WellFormed()
    modifies s, f
    ensures s.WellFormed()
    ensures var od, ol := old(s.dark), old(s.light);
      var ed, el := PassError(settings, Dark, od), PassError(settings, Light, ol);
      && (ed.Some? ==>
            r == Err(ed.value) && s.dark == od && s.light == ol && s.log == old(s.log) && f.writes == old(f.writes))
      && (ed.None? ==> s.dark == Adopted(od, PlanOf(settings, Dark).value))
      && (ed.None? && el.Some? ==>
            r == Err(el.value) && s.light == ol
            && s.log == old(s.log) + CreatesFor(Dark, od, PlanOf(settings, Dark).value)
            && f.writes == old(f.writes) + WritesFor(Mirrored(settings, Dark, od), od))
      && (ed.None? && el.None? ==>
            && r.Ok?
            && s.light == Adopted(ol, PlanOf(settings, Light).value)
            && s.log == old(s.log) + CreatesFor(Dark, od, PlanOf(settings, Dark).value)
                                   + CreatesFor(Light, ol, PlanOf(settings, Light).value)
            && r.value == LegacyResult(settings, od, ol)
            && f.writes == old(f.writes) + WritesFor(Mirrored(settings, Dark, od), od) + WritesFor(r.value, ol))
    ensures f.stored == if |f.writes| == |old(f.writes)| then old(f.stored) else Some(f.writes[|f.writes| - 1])
  {
    ghost var od, ol := s.dark, s.light;
    ghost var dOk := PassError(settings, Dark, od).None?;
    ghost var lOk := dOk && PassError(settings, Light, ol).None?;
    ghost var pd := if dOk then PlanOf(settings, Dark).value else Plan("", false);
    ghost var v1 := if dOk then Mirrored(settings, Dark, od) else settings;
    ghost var v2 := settings;
    if dOk {
      MirroredKeepsOther(settings, Dark, od, ol);
      if lOk {
        StartedReconcilable(settings);
        v2 := LegacyResult(settings, od, ol);
      }
    }
    var cur := settings;
    for i := 0 to 2
      invariant s.WellFormed()
      invariant i == 0 ==> cur == settings && s.dark == od && s.light == ol && s.log == old(s.log)
                           && f.writes == old(f.writes)
      invariant i >= 1 ==> dOk && s.dark == Adopted(od, pd)
      invariant i == 1 ==> cur == v1 && PassReady(cur, Light) && s.light == ol
                           && s.log == old(s.log) + CreatesFor(Dark, od, pd)
                           && f.writes == old(f.writes) + WritesFor(v1, od)
      invariant i == 2 ==> lOk && cur == v2
                           && s.light == Adopted(ol, PlanOf(settings, Light).value)
                           && s.log == old(s.log) + CreatesFor(Dark, od, pd)
                                      + CreatesFor(Light, ol, PlanOf(settings, Light).value)
                           && f.writes == old(f.writes) + WritesFor(v1, od) + WritesFor(cur, ol)
      invariant f.stored == if |f.writes| == |old(f.writes)| then old(f.stored) else Some(f.writes[|f.writes| - 1])
    {
      r := LegacyPass(cur, s, f, i);
      if r.Err? {
        if i == 0 {
          assert !dOk && r == Err(PassError(settings, Dark, od).value);
        } else {
          assert dOk && !lOk && r == Err(PassError(settings, Light, ol).value);
        }
        return;
      }
      cur := r.value;
      if i == 0 {
        assert dOk && cur == v1 && s.light == ol && s.log == old(s.log) + CreatesFor(Dark, od, pd)
               && f.writes == old(f.writes) + WritesFor(v1, od);
      } else {
        assert lOk && cur == v2;
      }
    }
    r := Ok(cur);
  }

  /** The plan the corrected pass leaves for a mode: an enabled task's other time is adopted, an existing task's state too. */
  function AdoptPlan(t: TaskState, p: Plan): Plan
    requires TimeConflict(t, p) ==> HasColon(t.time)
  {
    Plan(if TimeConflict(t, p) then StartOf(t.time) else p.time, AdoptedFlag(t, p))
  }

  /** What the corrected pass does not survive: an enabled task at another time without a colon in it. */
  predicate Unadoptable(t: TaskState, p: Plan)
  {
    TimeConflict(t, p) && !HasColon(t.time)
  }

  /**
   * The settings after the corrected pass over mode `m` whose task was
   * `t`: an enabled task at another time gives its start time to the
   * settings (both fields become strings), and an existing task gives its
   * state.
   */
  function Adopting(v: Value, m: Mode, t: TaskState): (r: Value)
    requires PlanOf(v, m).Some? && !Unadoptable(t, PlanOf(v, m).value)
    ensures PlanOf(r, m) == Some(AdoptPlan(t, PlanOf(v, m).value))
    ensures PlanOf(r, Other(m)) == PlanOf(v, Other(m))
    ensures t.Absent? ==> r == v
  {
    if TimeConflict(t, PlanOf(v, m).value) then
      var parts := Split(t.time, ':');
      SetStartFields(v, m, parts[0], parts[1]);
      var v' := SetModeField(SetModeField(v, m, "start_hour", VStr(parts[0])), m, "start_minute", VStr(parts[1]));
      WithFlag(v', m, t.enabled)
    else Mirrored(v, m, t)
  }

  /** The settings once both corrected passes are through. */
  function AdoptingResult(settings: Value, dark: TaskState, light: TaskState): (r: Value)
    requires Reconcilable(settings)
    requires dark.Present? ==> Token(dark.time)
    requires light.Present? ==> Token(light.time)
    requires !Unadoptable(dark, PlansOf(settings).value.dark) && !Unadoptable(light, PlansOf(settings).value.light)
    ensures Reconcilable(r)
    ensures var ps := PlansOf(settings).value;
      PlansOf(r) == Some(Plans(AdoptPlan(dark, ps.dark), AdoptPlan(light, ps.light)))
  {
    var ps := PlansOf(settings).value;
    var v1 := Adopting(settings, Dark, dark);
    AdoptPlanToken(dark, ps.dark);
    ReplanOne(settings, v1, Dark, AdoptPlan(dark, ps.dark));
    var v2 := Adopting(v1, Light, light);
    AdoptPlanToken(light, ps.light);
    ReplanOne(v1, v2, Light, AdoptPlan(light, ps.light));
    v2
  }

  /** An adopted start time still survives a query. */
  lemma AdoptPlanToken(t: TaskState, p: Plan)
    requires p.time != "" && Token(p.time) && (t.Present? ==> Token(t.time)) && !Unadoptable(t, p)
    ensures AdoptPlan(t, p).time != "" && Token(AdoptPlan(t, p).time)
  {
    if TimeConflict(t, p) {
      StartOfToken(t.time);
    }
  }

  /** On a parsed query the corrected time branch yields the pieces of an enabled task's other time. */
  lemma AdoptOnTask(date: string, t: TaskState, p: Plan)
    requires t.Present?
    ensures var r := AdoptTime(FieldsOf(date, t).time, p.time);
      && (r.Err? <==> Unadoptable(t, p))
      && (r.Ok? && r.value.Some? <==> TimeConflict(t, p) && HasColon(t.time))
      && (r.Ok? && r.value.Some? ==> r.value.value == (Split(t.time, ':')[0], Split(t.time, ':')[1]))
  {
    if t.enabled {
      assert DropLast(t.time + ":00", 3) == t.time;
    }
  }

  /**
   * One pass with the time branch corrected: the start time of an enabled
   * task at another time is adopted into the settings instead of raising.
   */
  method AdoptingPass(settings: Value, s: Scheduler, f: SettingsFile, i: nat) returns (r: Result<Value, PyError>)
    requires Reconcilable(settings) && s.WellFormed() && i < 2
    modifies s, f
    ensures s.WellFormed()
    ensures r.Err? <==> Unadoptable(old(s.Task(ModeAt(i))), PlansOf(settings).value.For(ModeAt(i)))
    ensures r.Err? ==> r.error == IndexError && s.dark == old(s.dark) && s.light == old(s.light)
                       && s.log == old(s.log) && f.stored == old(f.stored) && f.writes == old(f.writes)
    ensures r.Ok? ==> var m, t, p := ModeAt(i), old(s.Task(ModeAt(i))), PlansOf(settings).value.For(ModeAt(i));
      && s.Task(m) == Adopted(t, p)
      && s.Task(Other(m)) == old(s.Task(Other(m)))
      && s.log == old(s.log) + CreatesFor(m, t, p)
      && r.value == Adopting(settings, m, t)
      && f.writes == old(f.writes) + WritesFor(r.value, t)
      && f.stored == (if t.Present? then Some(YamlDump.Dump(r.value)) else old(f.stored))
    ensures f.stored == if |f.writes| == |old(f.writes)| then old(f.stored) else Some(f.writes[|f.writes| - 1])
  {
    ProbeReportsPresence(s.Task(ModeAt(i)));
    if !TaskExists(s.Probe(ModeAt(i))) {
      CreateMissing(PlansOf(settings).value.For(ModeAt(i)), s, i);
      return Ok(settings);
    }
    r := AdoptingExisting(settings, s, f, i);
  }

  /** The corrected query branch for an existing task. */
  method AdoptingExisting(settings: Value, s: Scheduler, f: SettingsFile, i: nat) returns (r: Result<Value, PyError>)
    requires Reconcilable(settings) && s.WellFormed() && i < 2 && s.Task(ModeAt(i)).Present?
    modifies f
    ensures r.Err? <==> Unadoptable(s.Task(ModeAt(i)), PlansOf(settings).value.For(ModeAt(i)))
    ensures r.Err? ==> r.error == IndexError && f.stored == old(f.stored) && f.writes == old(f.writes)
    ensures r.Ok? ==>
      && r.value == Adopting(settings, ModeAt(i), s.Task(ModeAt(i)))
      && f.writes == old(f.writes) + [YamlDump.Dump(r.value)]
      && f.stored == Some(YamlDump.Dump(r.value))
  {
    var m := ModeAt(i);
    var plan := PlansOf(settings).value.For(m);
    var query := ReadQuery(s, m);
    var fields := query.value;
    AdoptOnTask(s.date, s.Task(m), plan);
    var adopt := AdoptTime(fields.time, plan.time);
    if adopt.Err? {
      return Err(adopt.error);
    }
    var updated := settings;
    if adopt.value.Some? {
      var (hour, minute) := adopt.value.value;
      SetStartFields(settings, m, hour, minute);
      updated := SetModeField(SetModeField(settings, m, "start_hour", VStr(hour)), m, "start_minute", VStr(minute));
    }
    updated := WithFlag(updated, m, fields.taskEnabled);
    f.Write(updated);
    r := Ok(updated);
  }

  /** The plan a mode's settings should hold once they mirror an existing task. */
  function MirrorPlan(t: TaskState, p: Plan): Plan
    requires t.Present?
  {
    Plan(if t.enabled then t.time else p.time, t.enabled)
  }

  /**
   * After the corrected pass, the settings of a mode whose task existed
   * mirror it: an enabled task's clock time and its state; the start time
   * of a disabled task, which the query does not show, stays as it was.
   */
  lemma AdoptingMirrors(t: TaskState, p: Plan)
    requires t.Present? && (t.enabled ==> ClockTime(t.time) || t.time == p.time)
    ensures AdoptPlan(t, p) == MirrorPlan(t, p)
  {
  }

  /**
   * As written, the settings mirror an existing task only when the pass
   * returns, that is, when the task is not enabled at another time.
   */
  lemma LegacyMirrors(t: TaskState, p: Plan)
    requires t.Present? && !TimeConflict(t, p)
    ensures Plan(p.time, AdoptedFlag(t, p)) == MirrorPlan(t, p)
  {
  }

  /**
   * `check_tasks(settings)` with the time branch corrected. It raises only
   * for an enabled task at another time that has no colon, and otherwise
   * leaves every existing task's settings mirroring it.
   */
  method AdoptingCheckTasks(settings: Value, s: Scheduler, f: SettingsFile) returns (r: Result<Value, PyError>)
    requires Reconcilable(settings) && s.WellFormed()
    modifies s, f
    ensures s.WellFormed()
    ensures var ps, od, ol := PlansOf(settings).value, old(s.dark), old(s.light);
      && (r.Err? <==> Unadoptable(od, ps.dark) || Unadoptable(ol, ps.light))
      && (r.Err? ==> r.error == IndexError)
      && (Unadoptable(od, ps.dark) ==>
            s.dark == od && s.light == ol && s.log == old(s.log) && f.writes == old(f.writes))
      && (!Unadoptable(od, ps.dark) ==> s.dark == Adopted(od, ps.dark))
      && (!Unadoptable(od, ps.dark) && Unadoptable(ol, ps.light) ==>
            s.light == ol && s.log == old(s.log) + CreatesFor(Dark, od, ps.dark)
            && f.writes == old(f.writes) + WritesFor(Adopting(settings, Dark, od), od))
      && (r.Ok? ==>
            && s.light == Adopted(ol, ps.light)
            && s.log == old(s.log) + CreatesFor(Dark, od, ps.dark) + CreatesFor(Light, ol, ps.light)
            && r.value == AdoptingResult(settings, od, ol)
            && f.writes == old(f.writes) + WritesFor(Adopting(settings, Dark, od), od) + WritesFor(r.value, ol))
    ensures f.stored == if |f.writes| == |old(f.writes)| then old(f.stored) else Some(f.writes[|f.writes| - 1])
  {
    ghost var ps, od, ol := PlansOf(settings).value, s.dark, s.light;
    ghost var v1 := if Unadoptable(od, ps.dark) then settings else Adopting(settings, Dark, od);
    if !Unadoptable(od, ps.dark) {
      AdoptPlanToken(od, ps.dark);
      ReplanOne(settings, v1, Dark, AdoptPlan(od, ps.dark));
    }
    var cur := settings;
    for i := 0 to 2
      invariant s.WellFormed() && Reconcilable(cur)
      invariant i == 0 ==> cur == settings && s.dark == od && s.light == ol && s.log == old(s.log)
                           && f.writes == old(f.writes)
      invariant i >= 1 ==> !Unadoptable(od, ps.dark) && s.dark == Adopted(od, ps.dark)
      invariant i == 1 ==> cur == v1 && s.light == ol && s.log == old(s.log) + CreatesFor(Dark, od, ps.dark)
                           && f.writes == old(f.writes) + WritesFor(v1, od)
      invariant i == 2 ==> !Unadoptable(ol, ps.light) && cur == AdoptingResult(settings, od, ol)
                           && s.light == Adopted(ol, ps.light)
                           && s.log == old(s.log) + CreatesFor(Dark, od, ps.dark) + CreatesFor(Light, ol, ps.light)
                           && f.writes == old(f.writes) + WritesFor(v1, od) + WritesFor(cur, ol)
      invariant f.stored == if |f.writes| == |old(f.writes)| then old(f.stored) else Some(f.writes[|f.writes| - 1])
    {
      r := AdoptingPass(cur, s, f, i);
      if r.Err? {
        if i == 0 {
          assert Unadoptable(od, ps.dark);
        } else {
          assert !Unadoptable(od, ps.dark) && Unadoptable(ol, ps.light);
        }
        return;
      }
      cur := r.value;
      if i == 0 {
        assert !Unadoptable(od, ps.dark) && cur == v1 && s.light == ol
               && s.log == old(s.log) + CreatesFor(Dark, od, ps.dark)
               && f.writes == old(f.writes) + WritesFor(v1, od);
      } else {
        assert cur == AdoptingResult(settings, od, ol);
      }
    }
    r := Ok(cur);
  }
}
