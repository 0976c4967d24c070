/**
 * The Windows Task Scheduler as the program sees it through SCHTASKS: two
 * named daily tasks, the commands `create_task` and `change_task_state`
 * issue, the probe `task_exists` runs, and the one-line CSV answer of a
 * query. Process execution is replaced by state plus a command log.
 */
module TaskScheduler {
  import opened Wrappers
  import opened PyText
  import opened Modes

  /** A task is absent, or present with an enabled flag and the daily start text it was created with. */
  datatype TaskState = Absent | Present(enabled: bool, time: string)

  datatype StateChange = Enable | Disable

  /** `SCHTASKS /CREATE ... /ST <time> /F` and `SCHTASKS /CHANGE ... /ENABLE|/DISABLE`. */
  datatype Command = Create(mode: Mode, time: string) | Change(mode: Mode, state: StateChange)

  /** A text the CSV line and the space-separated next-run column carry unchanged: printable, no blank, comma or quote. */
  predicate Token(s: string)
  {
    forall c :: c in s ==> '!' <= c <= '~' && c != ',' && c != '"'
  }

  /** Python truth value of an optional string argument (`if start_dark_mode:`). */
  predicate Filled(arg: Option<string>)
  {
    arg.Some? && arg.value != ""
  }

  /** The commands `create_task(start_dark_mode, start_light_mode)` issues, dark first. */
  function CreateCommands(startDark: Option<string>, startLight: Option<string>): seq<Command>
  {
    (if Filled(startDark) then [Create(Dark, startDark.value)] else [])
    + (if Filled(startLight) then [Create(Light, startLight.value)] else [])
  }

  /** "Next Run Time" column: `N/A` for a disabled task. */
  function NextRunColumn(date: string, t: TaskState): string
    requires t.Present?
  {
    if t.enabled then date + " " + t.time + ":00" else "N/A"
  }

  /** "Status" column. */
  function StatusColumn(t: TaskState): string
    requires t.Present?
  {
    if t.enabled then "Ready" else "Disabled"
  }

  /** First line of `schtasks /query /TN <task> /fo CSV /nh`; nothing reaches stdout for a missing task. */
  function QueryLine(date: string, m: Mode, t: TaskState): string
  {
    if t.Absent? then ""
    else "\"" + TaskPath(m) + "\",\"" + NextRunColumn(date, t) + "\",\"" + StatusColumn(t) + "\"\n"
  }

  /** Output of `schtasks /query /TN <task> >NUL 2>&1 || echo error`. */
  function ProbeOutput(t: TaskState): string
  {
    if t.Absent? then "error\n" else ""
  }

  /** `task_exists`: false exactly when the trimmed probe output is "error". */
  predicate TaskExists(output: string)
  {
    Strip(output) != "error"
  }

  /** The probe tells a present task from a missing one. */
  lemma ProbeReportsPresence(t: TaskState)
    ensures TaskExists(ProbeOutput(t)) <==> t.Present?
  {
    if t.Absent? {
      assert "error" + "\n" == "error\n";
      StripLine("error");
    }
  }

  /** The scheduler holding the dark-mode and light-mode tasks. */
  class Scheduler {
    /** Date the query prints in front of the next run time; the clock is a parameter. */
    const date: string
    var dark: TaskState
    var light: TaskState
    /** Every SCHTASKS command issued, oldest first. */
    var log: seq<Command>

    function Task(m: Mode): TaskState
      reads this
    {
      if m == Dark then dark else light
    }

    /** The date and every present task's time survive the CSV query intact. */
    predicate WellFormed()
      reads this
    {
      date != "" && Token(date)
      && (dark.Present? ==> Token(dark.time))
      && (light.Present? ==> Token(light.time))
    }

    function Query(m: Mode): string
      reads this
    {
      QueryLine(date, m, Task(m))
    }

    function Probe(m: Mode): string
      reads this
    {
      ProbeOutput(Task(m))
    }

    constructor (date: string, dark: TaskState, light: TaskState)
      ensures this.date == date && this.dark == dark && this.light == light && log == []
    {
      this.date := date;
      this.dark := dark;
      this.light := light;
      log := [];
    }

    /**
     * `create_task`: each truthy argument creates (or, with /F, replaces)
     * its own task, enabled, at that time.
     */
    method CreateTask(startDark: Option<string>, startLight: Option<string>)
      modifies this
      ensures dark == (if Filled(startDark) then Present(true, startDark.value) else old(dark))
      ensures light == (if Filled(startLight) then Present(true, startLight.value) else old(light))
      ensures log == old(log) + CreateCommands(startDark, startLight)
    {
      if Filled(startDark) {
        dark := Present(true, startDark.value);
        log := log + [Create(Dark, startDark.value)];
      }
      if Filled(startLight) {
        light := Present(true, startLight.value);
        log := log + [Create(Light, startLight.value)];
      }
    }

    /**
     * `change_task_state(i, state)`: index 0 is the dark task, 1 the light
     * task, anything else issues nothing. Changing a missing task fails
     * inside SCHTASKS and leaves it missing.
     */
    method ChangeTaskState(i: int, state: StateChange)
      modifies this
      ensures i != 0 && i != 1 ==> dark == old(dark) && light == old(light) && log == old(log)
      ensures i == 0 || i == 1 ==>
        var m := ModeAt(i);
        && log == old(log) + [Change(m, state)]
        && Task(m) == (if old(Task(m)).Absent? then Absent else Present(state == Enable, old(Task(m)).time))
        && Task(if m == Dark then Light else Dark) == old(Task(if m == Dark then Light else Dark))
    {
      if i == 0 {
        if dark.Present? {
          dark := Present(state == Enable, dark.time);
        }
        log := log + [Change(Dark, state)];
      } else if i == 1 {
        if light.Present? {
          light := Present(state == Enable, light.time);
        }
        log := log + [Change(Light, state)];
      }
    }
  }
}
