/**
 * `check_tasks` of themeswitch/functions.py: bring the two scheduled tasks
 * in line with the settings record, re-running the whole check after each
 * correction. The query answer is parsed exactly as the source slices it.
 */
module Reconciler {
  import opened Wrappers
  import opened PyValue
  import opened PyText
  import opened Modes
  import opened TaskScheduler
  import ConfigStore

  /** What the parsing of a query line yields: `task_enabled` and the `time` token list. */
  datatype QueryFields = QueryFields(taskEnabled: bool, time: seq<string>)

  /**
   * `output = line.strip().replace('"', '').split(',')`,
   * `task_enabled = output[-1] == "Ready"`, `time = output[-2].strip().split(" ")`.
   */
  function ParseQuery(line: string): Result<QueryFields, PyError>
  {
    var output := Split(RemoveChar(Strip(line), '"'), ',');
    if |output| < 2 then Err(IndexError)
    else Ok(QueryFields(output[|output| - 1] == "Ready", Split(Strip(output[|output| - 2]), ' ')))
  }

  /** The fields a query of a present task should yield. */
  function FieldsOf(date: string, t: TaskState): QueryFields
    requires t.Present?
  {
    QueryFields(t.enabled, if t.enabled then [date, t.time + ":00"] else ["N/A"])
  }

  lemma TokenNotSpace(s: string)
    requires Token(s)
    ensures forall c :: c in s ==> !IsSpace(c) && c != ',' && c != '"' && c != ' '
  {
  }

  lemma RemoveQuotes(a: string, b: string, c: string)
    requires '"' !in a && '"' !in b && '"' !in c
    ensures RemoveChar("\"" + a + "\",\"" + b + "\",\"" + c + "\"", '"') == a + "," + b + "," + c
  {
    var q := "\"";
    var sep := "\",\"";
    RemoveCharConcat(q + a + sep + b + sep + c, q, '"');
    RemoveCharConcat(q + a + sep + b + sep, c, '"');
    RemoveCharConcat(q + a + sep + b, sep, '"');
    RemoveCharConcat(q + a + sep, b, '"');
    RemoveCharConcat(q + a, sep, '"');
    RemoveCharConcat(q, a, '"');
    RemoveCharAbsent(a, '"');
    RemoveCharAbsent(b, '"');
    RemoveCharAbsent(c, '"');
    assert RemoveChar(q, '"') == "";
    assert RemoveChar(sep, '"') == ",";
  }

  lemma SplitThree(a: string, b: string, c: string, sep: char)
    requires sep !in a && sep !in b && sep !in c
    ensures Split(a + [sep] + b + [sep] + c, sep) == [a, b, c]
  {
    SplitAbsent(c, sep);
    SplitFirst(b, c, sep);
    assert a + [sep] + b + [sep] + c == a + [sep] + (b + [sep] + c);
    SplitFirst(a, b + [sep] + c, sep);
  }

  lemma TaskPathPlain(m: Mode)
    ensures ',' !in TaskPath(m) && '"' !in TaskPath(m)
  {
    assert ',' !in "\\Theme Switch\\Change to Dark Mode" && '"' !in "\\Theme Switch\\Change to Dark Mode";
    assert ',' !in "\\Theme Switch\\Change to Light Mode" && '"' !in "\\Theme Switch\\Change to Light Mode";
  }

  /** A line of three quoted CSV fields, read back by strip, quote removal and a comma split. */
  lemma QuotedFields(a: string, b: string, c: string)
    requires ',' !in a && '"' !in a && ',' !in b && '"' !in b && ',' !in c && '"' !in c
    ensures Split(RemoveChar(Strip("\"" + a + "\",\"" + b + "\",\"" + c + "\"" + "\n"), '"'), ',') == [a, b, c]
  {
    var q := "\"" + a + "\",\"" + b + "\",\"" + c + "\"";
    StripLine(q);
    RemoveQuotes(a, b, c);
    assert a + "," + b + "," + c == a + [','] + b + [','] + c;
    SplitThree(a, b, c, ',');
  }

  /** The three CSV fields of a present task's query line. */
  lemma QueryColumns(date: string, m: Mode, t: TaskState)
    requires t.Present? && Token(date) && Token(t.time)
    ensures Split(RemoveChar(Strip(QueryLine(date, m, t)), '"'), ',')
            == [TaskPath(m), NextRunColumn(date, t), StatusColumn(t)]
  {
    var p, n, st := TaskPath(m), NextRunColumn(date, t), StatusColumn(t);
    TaskPathPlain(m);
    assert ',' !in n && '"' !in n;
    assert ',' !in st && '"' !in st;
    assert QueryLine(date, m, t) == "\"" + p + "\",\"" + n + "\",\"" + st + "\"" + "\n";
    QuotedFields(p, n, st);
  }

  /** The next-run column splits on blanks into the date and the time, or stays "N/A". */
  lemma NextRunTokens(date: string, t: TaskState)
    requires t.Present? && date != "" && Token(date) && Token(t.time)
    ensures Split(Strip(NextRunColumn(date, t)), ' ') == FieldsOf(date, t).time
  {
    var n := NextRunColumn(date, t);
    TokenNotSpace(date);
    assert n != [] && !IsSpace(n[0]) && !IsSpace(n[|n| - 1]);
    StripClean(n);
    if t.enabled {
      TokenNotSpace(t.time);
      assert ' ' !in t.time + ":00";
      SplitAbsent(t.time + ":00", ' ');
      assert n == date + [' '] + (t.time + ":00");
      SplitFirst(date, t.time + ":00", ' ');
    } else {
      SplitAbsent("N/A", ' ');
    }
  }

  /**
   * Reading back a query: a missing task makes `output[-2]` raise
   * IndexError; a present one yields its enabled flag and either
   * `[date, start + ":00"]` or `["N/A"]`.
   */
  lemma QueryParses(date: string, m: Mode, t: TaskState)
    requires date != "" && Token(date)
    requires t.Present? ==> Token(t.time)
    ensures ParseQuery(QueryLine(date, m, t)) == if t.Absent? then Err(IndexError) else Ok(FieldsOf(date, t))
  {
    if t.Present? {
      QueryColumns(date, m, t);
      NextRunTokens(date, t);
    }
  }

  /**
   * `schtasks /query /TN <task> /fo CSV /nh` read back as the loop parses
   * it: IndexError for a missing task, the task's fields otherwise.
   */
  method ReadQuery(s: Scheduler, m: Mode) returns (r: Result<QueryFields, PyError>)
    requires s.WellFormed()
    ensures r == if s.Task(m).Absent? then Err(IndexError) else Ok(FieldsOf(s.date, s.Task(m)))
  {
    QueryParses(s.date, m, s.Task(m));
    r := ParseQuery(s.Query(m));
  }

  /** What one pass decides for a present task: nothing (`continue`), or a recreate and/or a state change. */
  datatype Correction = Skip | Correct(recreate: bool, change: Option<StateChange>)

  /**
   * The branches of one loop pass once the query is parsed. The "already
   * correct" test looks at `time[-1]`, the "wrong time" test at `time[1]`;
   * the state change uses the `task_enabled` read before any correction.
   */
  function Decide(f: QueryFields, startTime: string, correctState: bool): Result<Correction, PyError>
  {
    if f.time == [] then Err(IndexError)
    else
      var last := f.time[|f.time| - 1];
      if f.taskEnabled == correctState && DropLast(last, 3) == startTime then Ok(Skip)
      else if last != "N/A" && |f.time| < 2 then Err(IndexError)
      else Ok(Correct(last != "N/A" && DropLast(f.time[1], 3) != startTime,
                      if f.taskEnabled != correctState then Some(if correctState then Enable else Disable) else None))
  }

  /** A mode's declared schedule: `"start_hour:start_minute"` and `enable_schedule`. */
  datatype Plan = Plan(time: string, enabled: bool)

  /**
   * The schedule the loop reads from `settings[mode]`; None when a key is
   * missing, `enable_schedule` is not a bool, or a start field is not a
   * scalar an f-string can be modelled on.
   */
  function PlanOf(settings: Value, m: Mode): Option<Plan>
  {
    match PyValue.Index(settings, ModeKey(m))
    case Err(_) => None
    case Ok(rec) => RecordPlan(rec)
  }

  /** The plan held by one mode record `settings[mode]`. */
  function RecordPlan(rec: Value): Option<Plan>
  {
    match (PyValue.Index(rec, "start_hour"), PyValue.Index(rec, "start_minute"), PyValue.Index(rec, "enable_schedule"))
    case (Ok(h), Ok(mi), Ok(VBool(e))) =>
      (match (FormatValue(h), FormatValue(mi))
       case (Some(hs), Some(ms)) => Some(Plan(hs + ":" + ms, e))
       case _ => None)
    case _ => None
  }

  /** The plans of both modes, as the loop reads them on every pass. */
  datatype Plans = Plans(dark: Plan, light: Plan)
  {
    function For(m: Mode): Plan
    {
      if m == Dark then dark else light
    }
  }

  /** Both start times are non-empty and survive a CSV query intact. */
  predicate Schedulable(ps: Plans)
  {
    ps.dark.time != "" && Token(ps.dark.time) && ps.light.time != "" && Token(ps.light.time)
  }

  function PlansOf(settings: Value): (ps: Option<Plans>)
    ensures ps.Some? <==> PlanOf(settings, Dark).Some? && PlanOf(settings, Light).Some?
    ensures ps.Some? ==>
              ps.value.For(Dark) == PlanOf(settings, Dark).value && ps.value.For(Light) == PlanOf(settings, Light).value
    ensures ps.Some? ==> ':' in ps.value.dark.time && ':' in ps.value.light.time
  {
    match (PlanOf(settings, Dark), PlanOf(settings, Light))
    case (Some(d), Some(l)) =>
      assert ':' in d.time && ':' in l.time;
      Some(Plans(d, l))
    case _ => None
  }

  /** Settings the reconciler is modelled on: both plans readable, both times intact through a query. */
  predicate Reconcilable(settings: Value)
  {
    PlansOf(settings).Some? && Schedulable(PlansOf(settings).value)
  }

  /** The reference reading of one pass, stated on the task itself rather than on parsed text. */
  function Expected(t: TaskState, p: Plan): Correction
    requires t.Present?
  {
    if t.enabled then
      if p.enabled && t.time == p.time then Skip
      else Correct(t.time != p.time, if p.enabled then None else Some(Disable))
    else Correct(false, if p.enabled then Some(Enable) else None)
  }

  /**
   * On the parsed query of a present task the loop's branches mean:
   * an enabled task at the declared time with the schedule on is left
   * alone; an enabled task at another time is recreated; a disabled task
   * (next run "N/A") is never recreated and never skipped, because
   * `"N/A"[:-3]` is empty; the enabled flag is corrected when it differs.
   */
  lemma DecideMatchesState(date: string, t: TaskState, p: Plan)
    requires t.Present? && p.time != ""
    ensures Decide(FieldsOf(date, t), p.time, p.enabled) == Ok(Expected(t, p))
  {
    if t.enabled {
      DecideEnabled(date, t.time, p);
    } else {
      DecideDisabled(p);
    }
  }

  lemma DecideEnabled(date: string, time: string, p: Plan)
    ensures Decide(QueryFields(true, [date, time + ":00"]), p.time, p.enabled) == Ok(Expected(Present(true, time), p))
  {
    var tok := time + ":00";
    assert DropLast(tok, 3) == time;
    assert tok[|tok| - 1] == '0';
    assert tok != "N/A";
    assert [date, tok][1] == tok;
  }

  lemma DecideDisabled(p: Plan)
    requires p.time != ""
    ensures Decide(QueryFields(false, ["N/A"]), p.time, p.enabled) == Ok(Expected(Present(false, ""), p))
  {
    assert DropLast("N/A", 3) == "";
  }

  /** A task agrees with its plan: enabled at the declared time, or present and disabled. */
  predicate InSync(t: TaskState, p: Plan)
  {
    if p.enabled then t == Present(true, p.time) else t.Present? && !t.enabled
  }

  /** The case the source does not survive: no task and the schedule off. */
  predicate MissingUnscheduled(t: TaskState, p: Plan)
  {
    t.Absent? && !p.enabled
  }

  /** How far a task is from its plan, counted in corrections that each trigger a re-run. */
  function Weight(t: TaskState, p: Plan): nat
  {
    match t
    case Absent => if p.enabled then 1 else 0
    case Present(en, time) =>
      if p.enabled then (if !en then 2 else if time != p.time then 1 else 0)
      else (if !en then 0 else if time != p.time then 2 else 1)
  }

  /** Commands never delete a task and never create one whose schedule is off and that is missing. */
  predicate Evolves(before: TaskState, after: TaskState, p: Plan)
  {
    (before.Present? ==> after.Present?) && (MissingUnscheduled(before, p) ==> after.Absent?)
  }

  function Potential(ps: Plans, dark: TaskState, light: TaskState): nat
  {
    Weight(dark, ps.dark) + Weight(light, ps.light)
  }

  predicate AllInSync(ps: Plans, dark: TaskState, light: TaskState)
  {
    InSync(dark, ps.dark) && InSync(light, ps.light)
  }

  predicate AnyMissingUnscheduled(ps: Plans, dark: TaskState, light: TaskState)
  {
    MissingUnscheduled(dark, ps.dark) || MissingUnscheduled(light, ps.light)
  }

  /** `start_time = [None, None]; start_time[i] = t`, the arguments passed to `create_task(*start_time)`. */
  function StartTimes(i: nat, t: string): (Option<string>, Option<string>)
  {
    (if i == 0 then Some(t) else None, if i == 1 then Some(t) else None)
  }

  /** `after` is `before` with further commands issued after it. */
  predicate Extends(before: seq<Command>, after: seq<Command>)
  {
    |before| <= |after| && after[..|before|] == before
  }

  /** Extending an extension extends the original. */
  lemma ExtendsTrans(a: seq<Command>, b: seq<Command>, c: seq<Command>)
    requires Extends(a, b) && Extends(b, c)
    ensures Extends(a, c)
  {
    assert c[..|a|] == a by {
      forall k | 0 <= k < |a|
        ensures c[..|a|][k] == a[k]
      {
        assert c[..|b|][k] == c[k];
        assert b[..|a|][k] == b[k];
      }
    }
  }

  /** An extension keeps the command at position `k` in place. */
  lemma ExtendsAt(b: seq<Command>, c: seq<Command>, k: nat)
    requires Extends(b, c) && k < |b|
    ensures c[k] == b[k]
  {
    assert c[..|b|][k] == c[k];
  }

  /** A correction of one task lowers its weight. */
  lemma CorrectionLowersWeight(t: TaskState, p: Plan)
    requires t.Present? && Expected(t, p).Correct?
    ensures Expected(t, p).recreate ==> Weight(Present(true, p.time), p) < Weight(t, p)
    ensures !Expected(t, p).recreate && Expected(t, p).change.Some? ==>
              Weight(Present(Expected(t, p).change.value == Enable, t.time), p) < Weight(t, p)
  {
  }

  /** Potential once the task at position `i` is replaced by `t`. */
  function PotentialWith(ps: Plans, dark: TaskState, light: TaskState, i: nat, t: TaskState): nat
    requires i < 2
  {
    if i == 0 then Potential(ps, t, light) else Potential(ps, dark, t)
  }

  /** `create_task` for the mode at `i` (with `/F`, so it replaces the task) and the re-run that follows. */
  method Recreate(ps: Plans, s: Scheduler, i: nat) returns (r: Outcome)
    requires Schedulable(ps) && s.WellFormed() && i < 2 && s.Task(ModeAt(i)).Present?
    modifies s
    decreases PotentialWith(ps, s.dark, s.light, i, Present(true, ps.For(ModeAt(i)).time)), 3
    ensures s.WellFormed()
    ensures Evolves(old(s.dark), s.dark, ps.dark) && Evolves(old(s.light), s.light, ps.light)
    ensures r.Raise? ==> r.error == IndexError && AnyMissingUnscheduled(ps, old(s.dark), old(s.light))
    ensures r.Pass? ==> AllInSync(ps, s.dark, s.light)
    ensures Extends(old(s.log), s.log)
    ensures |s.log| > |old(s.log)| && s.log[|old(s.log)|] == Create(ModeAt(i), ps.For(ModeAt(i)).time)
  {
    var start := StartTimes(i, ps.For(ModeAt(i)).time);
    s.CreateTask(start.0, start.1);
    ghost var mid := s.log;
    assert Extends(old(s.log), mid);
    r := Sweep(ps, s);
    ExtendsTrans(old(s.log), mid, s.log);
    ExtendsAt(mid, s.log, |old(s.log)|);
  }

  /** `change_task_state(i, state)` on an existing task and the re-run that follows. */
  method ChangeState(ps: Plans, s: Scheduler, i: nat, state: StateChange) returns (r: Outcome)
    requires Schedulable(ps) && s.WellFormed() && i < 2 && s.Task(ModeAt(i)).Present?
    modifies s
    decreases PotentialWith(ps, s.dark, s.light, i, Present(state == Enable, s.Task(ModeAt(i)).time)), 3
    ensures s.WellFormed()
    ensures Evolves(old(s.dark), s.dark, ps.dark) && Evolves(old(s.light), s.light, ps.light)
    ensures r.Raise? ==> r.error == IndexError && AnyMissingUnscheduled(ps, old(s.dark), old(s.light))
    ensures r.Pass? ==> AllInSync(ps, s.dark, s.light)
    ensures Extends(old(s.log), s.log)
    ensures |s.log| > |old(s.log)| && s.log[|old(s.log)|] == Change(ModeAt(i), state)
  {
    s.ChangeTaskState(i, state);
    ghost var mid := s.log;
    assert Extends(old(s.log), mid);
    r := Sweep(ps, s);
    ExtendsTrans(old(s.log), mid, s.log);
    ExtendsAt(mid, s.log, |old(s.log)|);
  }

  /**
   * The query branch of one pass for a task that exists: parse its line,
   * and when it disagrees with the plan recreate it and/or change its
   * state, re-running the whole check after each correction.
   */
  method CorrectPresent(ps: Plans, s: Scheduler, i: nat) returns (r: Outcome)
    requires Schedulable(ps) && s.WellFormed() && i < 2 && s.Task(ModeAt(i)).Present?
    modifies s
    decreases Potential(ps, s.dark, s.light), 0
    ensures s.WellFormed()
    ensures Evolves(old(s.dark), s.dark, ps.dark) && Evolves(old(s.light), s.light, ps.light)
    ensures r.Raise? ==> r.error == IndexError && AnyMissingUnscheduled(ps, old(s.dark), old(s.light))
    ensures r.Pass? ==> InSync(s.Task(ModeAt(i)), ps.For(ModeAt(i)))
    ensures r.Pass? && InSync(old(s.dark), ps.dark) ==> InSync(s.dark, ps.dark)
    ensures r.Pass? && InSync(old(s.light), ps.light) ==> InSync(s.light, ps.light)
    ensures r.Pass? ==> Potential(ps, s.dark, s.light) <= Potential(ps, old(s.dark), old(s.light))
    ensures InSync(old(s.Task(ModeAt(i))), ps.For(ModeAt(i))) ==>
              r.Pass? && s.dark == old(s.dark) && s.light == old(s.light) && s.log == old(s.log)
    ensures Extends(old(s.log), s.log)
  {
    var m := ModeAt(i);
    var plan := ps.For(m);
    var fields := ReadQuery(s, m);
    DecideMatchesState(s.date, s.Task(m), plan);
    var c := Decide(fields.value, plan.time, plan.enabled).value;
    r := Pass;
    if c.Correct? {
      CorrectionLowersWeight(s.Task(m), plan);
      if c.recreate {
        r := Recreate(ps, s, i);
        if r.Raise? {
          return;
        }
      }
      if c.change.Some? {
        ghost var mid := s.log;
        r := ChangeState(ps, s, i, c.change.value);
        ExtendsTrans(old(s.log), mid, s.log);
      }
    }
  }

  /**
   * One pass of the loop of `check_tasks` for the mode at position `i`,
   * together with the re-runs it triggers. It raises only when some task is
   * missing while its schedule is off: such a task is queried, its empty
   * answer splits into one field, and `output[-2]` raises IndexError.
   * Otherwise its own task ends in agreement with the settings, and a task
   * already in agreement is left as it is.
   */
  method ReconcileMode(ps: Plans, s: Scheduler, i: nat) returns (r: Outcome)
    requires Schedulable(ps) && s.WellFormed() && i < 2
    modifies s
    decreases Potential(ps, s.dark, s.light), 1
    ensures s.WellFormed()
    ensures Evolves(old(s.dark), s.dark, ps.dark) && Evolves(old(s.light), s.light, ps.light)
    ensures r.Raise? ==> r.error == IndexError && AnyMissingUnscheduled(ps, old(s.dark), old(s.light))
    ensures r.Pass? ==> InSync(s.Task(ModeAt(i)), ps.For(ModeAt(i)))
    ensures r.Pass? && InSync(old(s.dark), ps.dark) ==> InSync(s.dark, ps.dark)
    ensures r.Pass? && InSync(old(s.light), ps.light) ==> InSync(s.light, ps.light)
    ensures r.Pass? ==> Potential(ps, s.dark, s.light) <= Potential(ps, old(s.dark), old(s.light))
    ensures InSync(old(s.Task(ModeAt(i))), ps.For(ModeAt(i))) ==>
              r.Pass? && s.dark == old(s.dark) && s.light == old(s.light) && s.log == old(s.log)
    ensures old(s.Task(ModeAt(i))).Absent? && ps.For(ModeAt(i)).enabled ==>
              && r.Pass?
              && s.log == old(s.log) + [Create(ModeAt(i), ps.For(ModeAt(i)).time)]
              && s.Task(ModeAt(i)) == Present(true, ps.For(ModeAt(i)).time)
              && s.Task(Other(ModeAt(i))) == old(s.Task(Other(ModeAt(i))))
    ensures Extends(old(s.log), s.log)
  {
    var m := ModeAt(i);
    var plan := ps.For(m);
    ProbeReportsPresence(s.Task(m));
    if !TaskExists(s.Probe(m)) && plan.enabled {
      var start := StartTimes(i, plan.time);
      s.CreateTask(start.0, start.1);
      return Pass;
    }
    if s.Task(m).Absent? {
      var fields := ReadQuery(s, m);
      return Raise(fields.error);
    }
    r := CorrectPresent(ps, s, i);
  }

  /**
   * The body of `check_tasks` once the plans are read: both passes of the
   * loop, each re-running the whole check after a correction.
   */
  method Sweep(ps: Plans, s: Scheduler) returns (r: Outcome)
    requires Schedulable(ps) && s.WellFormed()
    modifies s
    decreases Potential(ps, s.dark, s.light), 2
    ensures s.WellFormed()
    ensures Evolves(old(s.dark), s.dark, ps.dark) && Evolves(old(s.light), s.light, ps.light)
    ensures r.Pass? <==> !AnyMissingUnscheduled(ps, old(s.dark), old(s.light))
    ensures r.Raise? ==> r.error == IndexError
    ensures r.Pass? ==> AllInSync(ps, s.dark, s.light)
    ensures AllInSync(ps, old(s.dark), old(s.light)) ==>
              s.dark == old(s.dark) && s.light == old(s.light) && s.log == old(s.log)
    ensures Extends(old(s.log), s.log)
  {
    for i := 0 to 2
      invariant s.WellFormed()
      invariant Evolves(old(s.dark), s.dark, ps.dark) && Evolves(old(s.light), s.light, ps.light)
      invariant i >= 1 ==> InSync(s.dark, ps.dark)
      invariant i >= 2 ==> InSync(s.light, ps.light)
      invariant Potential(ps, s.dark, s.light) <= Potential(ps, old(s.dark), old(s.light))
      invariant AllInSync(ps, old(s.dark), old(s.light)) ==>
                  s.dark == old(s.dark) && s.light == old(s.light) && s.log == old(s.log)
      invariant Extends(old(s.log), s.log)
    {
      ghost var before := s.log;
      r := ReconcileMode(ps, s, i);
      ExtendsTrans(old(s.log), before, s.log);
      if r.Raise? {
        return;
      }
    }
    r := Pass;
  }

  /**
   * `check_tasks(settings)` as written. It returns normally exactly when no
   * task is missing while its schedule is off; a missing unscheduled task
   * falls into the query branch, whose empty answer makes `output[-2]` raise
   * IndexError. On return both tasks agree with the settings, and a run
   * that finds them in agreement issues no command. Termination rests on
   * Potential: each correction lowers it, and the stale state change after
   * a re-run is only issued once everything already agrees.
   */
  method CheckTasks(settings: Value, s: Scheduler) returns (r: Outcome)
    requires Reconcilable(settings) && s.WellFormed()
    modifies s
    ensures var ps := PlansOf(settings).value;
      && s.WellFormed()
      && Evolves(old(s.dark), s.dark, ps.dark) && Evolves(old(s.light), s.light, ps.light)
      && (r.Pass? <==> !AnyMissingUnscheduled(ps, old(s.dark), old(s.light)))
      && (r.Raise? ==> r.error == IndexError)
      && (r.Pass? ==> AllInSync(ps, s.dark, s.light))
      && (AllInSync(ps, old(s.dark), old(s.light)) ==>
            s.dark == old(s.dark) && s.light == old(s.light) && s.log == old(s.log))
  {
    r := Sweep(PlansOf(settings).value, s);
  }

  /**
   * The first run after installation: `load_settings` hands over the
   * default record, whose schedules are both off, and neither task exists
   * yet. CheckTasks then raises IndexError (its `r.Pass?` clause), where
   * CheckTasksCorrected leaves both tasks missing and settled.
   */
  lemma FreshInstallRaises()
    ensures Reconcilable(ConfigStore.DefaultSettings())
    ensures PlansOf(ConfigStore.DefaultSettings()) == Some(Plans(Plan("07:00", false), Plan("19:00", false)))
    ensures AnyMissingUnscheduled(PlansOf(ConfigStore.DefaultSettings()).value, Absent, Absent)
  {
    DefaultShape(ConfigStore.DefaultSettings());
    DefaultPlans(ConfigStore.DefaultSettings());
    DefaultSchedulable();
  }

  /** The layout of a default mode record that its plan depends on. */
  predicate DefaultRecord(rec: Value, h: string)
  {
    && rec.VMap? && |rec.entries| == 6
    && rec.entries[0].0 == "brightness" && rec.entries[1].0 == "os_theme" && rec.entries[2].0 == "wallpaper"
    && rec.entries[3] == ("start_hour", VStr(h)) && rec.entries[4] == ("start_minute", VStr("00"))
    && rec.entries[5] == ("enable_schedule", VBool(false))
  }

  lemma DefaultShape(v: Value)
    requires v == ConfigStore.DefaultSettings()
    ensures v.VMap? && |v.entries| == 2 && v.entries[0].0 == "dark_mode" && v.entries[1].0 == "light_mode"
    ensures DefaultRecord(v.entries[0].1, "07") && DefaultRecord(v.entries[1].1, "19")
  {
  }

  lemma DefaultPlans(v: Value)
    requires v.VMap? && |v.entries| == 2 && v.entries[0].0 == "dark_mode" && v.entries[1].0 == "light_mode"
    requires DefaultRecord(v.entries[0].1, "07") && DefaultRecord(v.entries[1].1, "19")
    ensures PlansOf(v) == Some(Plans(Plan("07:00", false), Plan("19:00", false)))
  {
    var es := v.entries;
    GetAt(es, 0);
    GetAt(es, 1);
    PlanAt(v, Dark, es[0].1);
    PlanAt(v, Light, es[1].1);
    DefaultRecordPlan(es[0].1, "07");
    DefaultRecordPlan(es[1].1, "19");
    MorningText();
    EveningText();
  }

  lemma MorningText()
    ensures "07" + ":00" == "07:00"
  {
    var t := "07" + ":00";
    assert t[0] == '0' && t[1] == '7' && t[2] == ':' && t[3] == '0' && t[4] == '0';
  }

  lemma EveningText()
    ensures "19" + ":00" == "19:00"
  {
    var t := "19" + ":00";
    assert t[0] == '1' && t[1] == '9' && t[2] == ':' && t[3] == '0' && t[4] == '0';
  }

  /** A mode's plan is read from the record its key finds. */
  lemma PlanAt(v: Value, m: Mode, rec: Value)
    requires v.VMap? && Get(v.entries, ModeKey(m)) == Some(rec)
    ensures PlanOf(v, m) == RecordPlan(rec)
  {
  }

  lemma DefaultSchedulable()
    ensures Schedulable(Plans(Plan("07:00", false), Plan("19:00", false)))
  {
  }

  /** The plan of a default mode record: its start hour at minute "00", schedule off. */
  lemma DefaultRecordPlan(rec: Value, h: string)
    requires DefaultRecord(rec, h)
    ensures RecordPlan(rec) == Some(Plan(h + ":00", false))
  {
    var es := rec.entries;
    GetAt(es, 3);
    GetAt(es, 4);
    GetAt(es, 5);
    assert PyValue.Index(rec, "start_hour") == Ok(VStr(h));
    assert PyValue.Index(rec, "start_minute") == Ok(VStr("00"));
    assert PyValue.Index(rec, "enable_schedule") == Ok(VBool(false));
    assert h + ":" + "00" == h + ":00";
  }

  /** A task the corrected reconciler accepts: in agreement, or missing while its schedule is off. */
  predicate Settled(t: TaskState, p: Plan)
  {
    InSync(t, p) || MissingUnscheduled(t, p)
  }

  predicate AllSettled(ps: Plans, dark: TaskState, light: TaskState)
  {
    Settled(dark, ps.dark) && Settled(light, ps.light)
  }

  /** Recreate, followed by the corrected re-run. */
  method SettleRecreate(ps: Plans, s: Scheduler, i: nat)
    requires Schedulable(ps) && s.WellFormed() && i < 2 && s.Task(ModeAt(i)).Present?
    modifies s
    decreases PotentialWith(ps, s.dark, s.light, i, Present(true, ps.For(ModeAt(i)).time)), 3
    ensures s.WellFormed()
    ensures Evolves(old(s.dark), s.dark, ps.dark) && Evolves(old(s.light), s.light, ps.light)
    ensures AllSettled(ps, s.dark, s.light)
    ensures Extends(old(s.log), s.log)
    ensures |s.log| > |old(s.log)| && s.log[|old(s.log)|] == Create(ModeAt(i), ps.For(ModeAt(i)).time)
  {
    var start := StartTimes(i, ps.For(ModeAt(i)).time);
    s.CreateTask(start.0, start.1);
    ghost var mid := s.log;
    assert Extends(old(s.log), mid);
    SettleTasks(ps, s);
    ExtendsTrans(old(s.log), mid, s.log);
    ExtendsAt(mid, s.log, |old(s.log)|);
  }

  /** ChangeState, followed by the corrected re-run. */
  method SettleChange(ps: Plans, s: Scheduler, i: nat, state: StateChange)
    requires Schedulable(ps) && s.WellFormed() && i < 2 && s.Task(ModeAt(i)).Present?
    modifies s
    decreases PotentialWith(ps, s.dark, s.light, i, Present(state == Enable, s.Task(ModeAt(i)).time)), 3
    ensures s.WellFormed()
    ensures Evolves(old(s.dark), s.dark, ps.dark) && Evolves(old(s.light), s.light, ps.light)
    ensures AllSettled(ps, s.dark, s.light)
    ensures Extends(old(s.log), s.log)
    ensures |s.log| > |old(s.log)| && s.log[|old(s.log)|] == Change(ModeAt(i), state)
  {
    s.ChangeTaskState(i, state);
    ghost var mid := s.log;
    assert Extends(old(s.log), mid);
    SettleTasks(ps, s);
    ExtendsTrans(old(s.log), mid, s.log);
    ExtendsAt(mid, s.log, |old(s.log)|);
  }

  /** CorrectPresent, re-running the corrected check after each correction. */
  method SettlePresent(ps: Plans, s: Scheduler, i: nat)
    requires Schedulable(ps) && s.WellFormed() && i < 2 && s.Task(ModeAt(i)).Present?
    modifies s
    decreases Potential(ps, s.dark, s.light), 0
    ensures s.WellFormed()
    ensures Evolves(old(s.dark), s.dark, ps.dark) && Evolves(old(s.light), s.light, ps.light)
    ensures Settled(s.Task(ModeAt(i)), ps.For(ModeAt(i)))
    ensures Settled(old(s.dark), ps.dark) ==> Settled(s.dark, ps.dark)
    ensures Settled(old(s.light), ps.light) ==> Settled(s.light, ps.light)
    ensures Potential(ps, s.dark, s.light) <= Potential(ps, old(s.dark), old(s.light))
    ensures Settled(old(s.Task(ModeAt(i))), ps.For(ModeAt(i))) ==>
              s.dark == old(s.dark) && s.light == old(s.light) && s.log == old(s.log)
    ensures Extends(old(s.log), s.log)
  {
    var m := ModeAt(i);
    var plan := ps.For(m);
    var fields := ReadQuery(s, m);
    DecideMatchesState(s.date, s.Task(m), plan);
    var c := Decide(fields.value, plan.time, plan.enabled).value;
    if c.Correct? {
      CorrectionLowersWeight(s.Task(m), plan);
      if c.recreate {
        SettleRecreate(ps, s, i);
      }
      if c.change.Some? {
        ghost var mid := s.log;
        SettleChange(ps, s, i, c.change.value);
        ExtendsTrans(old(s.log), mid, s.log);
      }
    }
  }

  /**
   * One pass of the loop with the missing-task test read as evidently
   * intended: a task that does not exist is created when its schedule is on
   * and otherwise left alone, instead of being queried.
   */
  method SettleMode(ps: Plans, s: Scheduler, i: nat)
    requires Schedulable(ps) && s.WellFormed() && i < 2
    modifies s
    decreases Potential(ps, s.dark, s.light), 1
    ensures s.WellFormed()
    ensures Evolves(old(s.dark), s.dark, ps.dark) && Evolves(old(s.light), s.light, ps.light)
    ensures Settled(s.Task(ModeAt(i)), ps.For(ModeAt(i)))
    ensures Settled(old(s.dark), ps.dark) ==> Settled(s.dark, ps.dark)
    ensures Settled(old(s.light), ps.light) ==> Settled(s.light, ps.light)
    ensures Potential(ps, s.dark, s.light) <= Potential(ps, old(s.dark), old(s.light))
    ensures Settled(old(s.Task(ModeAt(i))), ps.For(ModeAt(i))) ==>
              s.dark == old(s.dark) && s.light == old(s.light) && s.log == old(s.log)
    ensures Extends(old(s.log), s.log)
  {
    var m := ModeAt(i);
    var plan := ps.For(m);
    ProbeReportsPresence(s.Task(m));
    if !TaskExists(s.Probe(m)) {
      if plan.enabled {
        var start := StartTimes(i, plan.time);
        s.CreateTask(start.0, start.1);
      }
      return;
    }
    SettlePresent(ps, s, i);
  }

  /** The corrected loop body: never raises, and leaves every task settled. */
  method SettleTasks(ps: Plans, s: Scheduler)
    requires Schedulable(ps) && s.WellFormed()
    modifies s
    decreases Potential(ps, s.dark, s.light), 2
    ensures s.WellFormed()
    ensures Evolves(old(s.dark), s.dark, ps.dark) && Evolves(old(s.light), s.light, ps.light)
    ensures AllSettled(ps, s.dark, s.light)
    ensures AllSettled(ps, old(s.dark), old(s.light)) ==>
              s.dark == old(s.dark) && s.light == old(s.light) && s.log == old(s.log)
    ensures Extends(old(s.log), s.log)
  {
    for i := 0 to 2
      invariant s.WellFormed()
      invariant Evolves(old(s.dark), s.dark, ps.dark) && Evolves(old(s.light), s.light, ps.light)
      invariant i >= 1 ==> Settled(s.dark, ps.dark)
      invariant i >= 2 ==> Settled(s.light, ps.light)
      invariant Potential(ps, s.dark, s.light) <= Potential(ps, old(s.dark), old(s.light))
      invariant AllSettled(ps, old(s.dark), old(s.light)) ==>
                  s.dark == old(s.dark) && s.light == old(s.light) && s.log == old(s.log)
      invariant Extends(old(s.log), s.log)
    {
      ghost var before := s.log;
      SettleMode(ps, s, i);
      ExtendsTrans(old(s.log), before, s.log);
    }
  }

  /**
   * `check_tasks(settings)` with the missing-task test corrected. A task
   * whose schedule is on ends enabled at the declared time; a task whose
   * schedule is off ends disabled, or stays missing. A second run changes
   * nothing.
   */
  method CheckTasksCorrected(settings: Value, s: Scheduler)
    requires Reconcilable(settings) && s.WellFormed()
    modifies s
    ensures var ps := PlansOf(settings).value;
      && s.WellFormed()
      && Evolves(old(s.dark), s.dark, ps.dark) && Evolves(old(s.light), s.light, ps.light)
      && AllSettled(ps, s.dark, s.light)
      && (AllSettled(ps, old(s.dark), old(s.light)) ==>
            s.dark == old(s.dark) && s.light == old(s.light) && s.log == old(s.log))
  {
    SettleTasks(PlansOf(settings).value, s);
  }
}
