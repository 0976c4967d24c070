# ThemeSwitchW10: a Dafny model of its settings and scheduling core

ThemeSwitchW10 switches Windows 10 between a dark and a light mode. Each
mode has a brightness, a wallpaper, a system theme and a daily start time.
Both modes live in one `settings.yaml` record. Two tasks in the Windows Task
Scheduler switch the modes at their start times. The repository holds two
generations of the program:

- the package `themeswitch/`: `functions.py` and the Tk front end `gui.py`;
- the older stand-alone scripts `theme_switch.py` and `theme_switch_gui.py`.

This project models the logic that both generations build around those OS
calls:

- the validator and the self-healing loader of the settings record
  (`ConfigStore`, `LegacyConfigStore`);
- the `yaml.dump` round trip, which sorts mapping keys (`YamlDump`);
- the scheduler, seen through SCHTASKS (`TaskScheduler`): two tasks, the
  create and change commands, the existence probe, and the one-line CSV
  answer of a query;
- the reconciliation of the tasks with the record:
  - the package's `check_tasks`, where the settings win and the check
    re-runs after every correction (`Reconciler`);
  - the script's `check_tasks`, where the scheduler wins and the record is
    rewritten (`LegacyReconciler`);
- which mode record is applied: the `-d`/`-l` flags or the main window's
  toggle (`ModeSelection`);
- the settings window of both front ends (`SettingsForm`): reading the
  record into the form, writing it back, the spinbox states, and applying
  the schedule;
- the wallpaper warnings of the package front end (`WallpaperChecks`).

The loosely typed YAML document is a `Value` datatype (`PyValue`). Its
mappings are ordered lists of key/value pairs, because the package's
validator compares key order. The settings file is a class: the document
it holds, if any, and the log of documents written to it. The scheduler is
a class: the state of each task and the log of commands issued. The
registry, WMI and wallpaper calls become an effect list. The Tk variables
of the settings window are fields of a class, each holding the value it
was last set to.

Most properties come in pairs: an operation, and a reference definition
or invariant it is proved against. Examples:

- the loader returns a stored valid record unchanged, and otherwise
  returns the default as built (in an order the validator itself rejects)
  while writing its sorted dump, which is valid, to the file; either way
  the file holds a valid record afterwards;
- the package's `check_tasks`:
  - always terminates (proved by a potential that decreases with every
    correction);
  - leaves every task in sync with the record whenever it returns
    normally;
  - raises exactly when a task is missing while its schedule is off;
- reading a valid record whose start fields are set (truthy) into the
  settings window and saving it without an edit writes the same record
  back (an empty start field is shown as its default, such as "09", and
  saved as that);
- `apply_changes`, on a file that holds a valid record, leaves the file
  holding a valid record with the form's schedules, and leaves tasks
  settled with it: enabled at the tab's time when its schedule is on,
  otherwise disabled or missing. That is the agreement the corrected
  check uses; the check as written still raises IndexError on the next
  run for a missing task whose schedule is off.

## Model

| member | source | states |
|---|---|---|
| ConfigStore.EncodeValid | themeswitch/functions.py:101-119 | Both directions: the top keys are `dark_mode`, `light_mode` in that order, each mode has the six keys in `low_keys` order, no field is None, brightness is an int in 0..100, `enable_schedule` is a bool, `os_theme` equals the mode's position |
| ConfigStore.CheckSettings | themeswitch/functions.py:91-122 | The definition of `check_settings`: a mapping with exactly `dark_mode`, `light_mode` in that order, each mode exactly `low_keys` in order, no None, brightness an exact int in 0..100, a bool `enable_schedule`, `os_theme` equal to the position; a non-mapping, whose attribute lookup raises, gives False. Its meaning is proved by EncodeValid and CheckSettingsDecodes |
| ConfigStore.EncodeModeValid | themeswitch/functions.py:106-118 | One mode record passes the per-mode checks exactly when its typed fields are valid for its position |
| ConfigStore.EncodeModeNoneFree | themeswitch/functions.py:109-110 | A mode record has no None field exactly when its start hour, start minute and wallpaper are not None |
| ConfigStore.CheckSettingsDecodes | themeswitch/functions.py:101-119 | Every accepted document is the encoding of a valid typed record, so any mapping with other key orders, extra keys, a None or a wrongly typed field is rejected |
| ConfigStore.DecodeModeValid | themeswitch/functions.py:106-118 | An accepted mode record decodes to a valid typed record and re-encodes to itself |
| ConfigStore.DefaultConfig | themeswitch/functions.py:68-83 | The default record (dark: brightness 0, theme 0, 07:00; light: brightness 100, theme 1, 19:00; both: wallpaper "" and schedule off) is valid |
| ConfigStore.DefaultSettings | themeswitch/functions.py:68-85 | The default record in the key order the source builds it (also theme_switch.py:26-43). The package validator rejects it as built (DefaultInMemoryRejected), accepts it once dumped (DumpedDefault), and the script accepts it as built (LegacyAcceptsDefaultInMemory) |
| ConfigStore.DefaultInMemoryRejected | themeswitch/functions.py:67-86 | The default as built in memory, with keys out of `low_keys` order, would itself fail the validator |
| ConfigStore.DumpedDefault | themeswitch/functions.py:86 | After `yaml.dump` sorts its keys, the default record is the valid typed default, so the file written is accepted on the next load |
| ConfigStore.DumpDefaultMode | themeswitch/functions.py:69-83 | Dumping one default mode record, built in source key order, yields the typed record's keys in `low_keys` order |
| ConfigStore.SortDefaultOrder | themeswitch/functions.py:69-76 | Sorting the keys of a mode record in the default's build order gives `low_keys` order |
| ConfigStore.EncodeModeSorted | themeswitch/functions.py:102 | `low_keys` is in ascending key order, so a typed mode record is already sorted |
| ConfigStore.EncodedSorted | themeswitch/functions.py:101-102 | Both levels of a typed record are in ascending key order, so `yaml.dump` leaves their order unchanged |
| ConfigStore.DumpTop | themeswitch/functions.py:86 | Dumping the two-mode document keeps `dark_mode` before `light_mode` and dumps each record |
| ConfigStore.DumpEncodedMode | themeswitch/gui.py:338 | Dumping a typed mode record dumps its three free-form fields and keeps the rest |
| ConfigStore.DumpEncoded | themeswitch/gui.py:338 | Dumping a typed record gives the typed record with its free-form fields dumped |
| ConfigStore.DumpNotNull | themeswitch/functions.py:109-110 | Dumping gives None exactly for None, so no None appears in a dumped field |
| ConfigStore.DumpedModeValid | themeswitch/functions.py:106-118 | Dumping a mode record keeps it valid, and keeps it invalid |
| ConfigStore.DumpKeepsValid | themeswitch/functions.py:86 | Writing a valid document through `yaml.dump` leaves a document the validator accepts |
| ConfigStore.SettingsFile.Write | themeswitch/functions.py:85-86 | The file then holds the dumped document, and the write is appended to the log |
| ConfigStore.SettingsFile.Truncate | themeswitch/gui.py:329 | Opening for writing leaves an empty document, which loads as None |
| ConfigStore.LoadSettings | themeswitch/functions.py:49-88 | A valid stored record is returned unchanged with nothing written; for a missing or invalid one the dumped default is written, and the default is returned as built; the file holds a valid record afterwards |
| LegacyConfigStore.LegacyCheckMode | theme_switch.py:53-63 | The script's per-mode checks, exactly. AttributeError iff the record is not a mapping. True iff it is a mapping with no None value, only `low_keys` fields, brightness an exact int in 0..100, a bool `enable_schedule` and `os_theme` equal to the position. KeyError iff those checks reach a missing brightness, flag or `os_theme`. False in every other case |
| LegacyConfigStore.LegacyCheckSettings | theme_switch.py:48-64 | A non-mapping raises AttributeError; other top keys give False. The mapping itself is returned exactly when the top keys are `dark_mode`, `light_mode` and both mode records pass their checks. The dark record's exception escapes before the light one is checked, and the light one's escapes after the dark one passed |
| LegacyConfigStore.PackageValidIsLegacyValid | theme_switch.py:48-64 | Every record the package accepts, the script accepts and returns |
| LegacyConfigStore.LegacyModeAccepts | theme_switch.py:53-63 | A mode record the package accepts passes the script's per-mode checks |
| LegacyConfigStore.LegacyModeFields | theme_switch.py:53-63 | Known keys, no None, brightness an int in 0..100, a bool flag and the right `os_theme` are enough, whatever the three free-form fields hold or whether they are there at all |
| LegacyConfigStore.LegacyAcceptsDefaultInMemory | theme_switch.py:48-64 | The script accepts the default record in its build order, unlike the package |
| LegacyConfigStore.LegacyAcceptsShaped | theme_switch.py:48-64 | Any document shaped like the default is accepted and returned |
| LegacyConfigStore.LegacyAcceptsModes | theme_switch.py:48-64 | Two accepted mode records under the right top keys make an accepted document |
| LegacyConfigStore.LegacyLoadSettings | theme_switch.py:17-45 | For a missing file, or a record the check refuses, the dumped default is written, and the default is returned as built; an accepted record is returned with nothing written; a check that raises propagates |
| TaskScheduler.ProbeReportsPresence | themeswitch/functions.py:241-251 | `task_exists` is true exactly when the task is present |
| TaskScheduler.TaskExists | themeswitch/functions.py:241-251 | The definition of `task_exists`: true unless the stripped probe output is `error` (also theme_switch.py:112-116); ProbeReportsPresence proves what it means |
| TaskScheduler.QueryLine | themeswitch/functions.py:301-302 | The first line `schtasks /query /fo CSV /nh` prints: the quoted task path, next-run column and status of a present task, nothing for a missing one. QueryParses is proved about it |
| TaskScheduler.CreateCommands | themeswitch/functions.py:198-219 | The definition of the commands `create_task` issues: one per truthy argument, dark first (also theme_switch.py:96-102). Scheduler.CreateTask is proved against it |
| TaskScheduler.Scheduler.CreateTask | themeswitch/functions.py:198-219 | Only a truthy argument creates or replaces its own task, enabled at the given time; commands are issued dark first (also theme_switch.py:96-102) |
| TaskScheduler.Scheduler.ChangeTaskState | themeswitch/functions.py:222-238 | An index other than 0 or 1 does nothing; otherwise one change command for that task only, which sets the enabled flag of a present task and keeps its time (also theme_switch.py:105-109) |
| Reconciler.QueryParses | themeswitch/functions.py:300-304 | Parsing the query line of a present task recovers its status and next-run tokens; a missing task's empty line raises IndexError at `output[-2]` |
| Reconciler.ParseQuery | themeswitch/functions.py:302-305 | The definition of the parsing: strip, drop the quotes, split on commas, `output[-1] == "Ready"` and `output[-2].strip().split(" ")`, with IndexError for fewer than two columns. QueryParses and ReadQuery are proved about it |
| Reconciler.QueryColumns | themeswitch/functions.py:300-302 | Stripping, removing the quotes and splitting on commas gives the three CSV columns |
| Reconciler.NextRunTokens | themeswitch/functions.py:304 | The next-run column of an enabled task splits into the date and its start text followed by `:00`, that of a disabled task into `N/A` |
| Reconciler.ReadQuery | themeswitch/functions.py:299-304 | The query of a task yields its fields, or IndexError for a missing task |
| Reconciler.DecideMatchesState | themeswitch/functions.py:302-319 | On a present task, the decision taken from the parsed query is the one its state calls for: no command when in sync, otherwise a recreate or a state change |
| Reconciler.Decide | themeswitch/functions.py:306-317 | The definition of the branches of one pass on the parsed query, IndexError for `time[1]` on a one-token time. DecideMatchesState proves it equals the reference decision on the task's state |
| Reconciler.DecideEnabled | themeswitch/functions.py:306-314 | An enabled task is left alone when its flag and time both match; a wrong time is recreated, whatever the flag |
| Reconciler.DecideDisabled | themeswitch/functions.py:306-319 | A disabled task never takes the `continue` branch: `"N/A"[:-3]` is empty, so it falls through and only its flag is compared |
| Reconciler.PlansOf | themeswitch/functions.py:290-291 | Both modes' `"start_hour:start_minute"` and schedule flags, present exactly when each mode's fields can be read |
| Reconciler.RecordPlan | themeswitch/functions.py:291-306 | The definition of what a pass reads from `settings[mode]`: the f-string `start_hour:start_minute` and the bool `enable_schedule`, None when a key is missing. PlansOf and the LegacyReconciler lemmas are proved about it |
| Reconciler.CorrectionLowersWeight | themeswitch/functions.py:309-319 | Every correction strictly lowers the task's distance from its plan, which bounds the recursion |
| Reconciler.CheckTasks | themeswitch/functions.py:277-322 | Terminates; raises IndexError exactly when a task is missing while its schedule is off; otherwise leaves both tasks in sync with the record; issues nothing when they already are |
| Reconciler.Sweep | themeswitch/functions.py:290-319 | One pass over both modes with the same guarantees, recursion included; commands are only ever appended to the log |
| Reconciler.ReconcileMode | themeswitch/functions.py:291-319 | One mode: a missing, scheduled task is created at the record's time with exactly one `Create` command and the other task untouched; a present one is corrected; a task already in sync is left alone with nothing issued; earlier commands stay in the log |
| Reconciler.CorrectPresent | themeswitch/functions.py:299-319 | A present task ends in sync with its plan, and a mode already in sync stays so; commands are only appended |
| Reconciler.Recreate | themeswitch/functions.py:309-314 | The first command issued is `Create` for this mode at the record's time, then the whole check re-runs; earlier commands stay in the log |
| Reconciler.ChangeState | themeswitch/functions.py:315-319 | The first command issued is `Change` of this mode to the given state, then the whole check re-runs; earlier commands stay in the log |
| Reconciler.FreshInstallRaises | themeswitch/functions.py:291-305 | On a fresh install (default record, no tasks) a task is missing with its schedule off, so `check_tasks` raises |
| Reconciler.DefaultPlans | themeswitch/functions.py:68-83 | The default record plans 07:00 for dark and 19:00 for light, both unscheduled |
| Reconciler.CheckTasksCorrected | themeswitch/functions.py:291-319 | The intended check: terminates; leaves every task in sync, or missing with its schedule off; issues nothing when everything is already settled |
| Reconciler.SettleTasks | themeswitch/functions.py:290-319 | One pass of the intended check, recursion included, leaving both tasks settled; commands are only appended |
| Reconciler.SettleMode | themeswitch/functions.py:291-319 | One mode of the intended check: a settled task is left alone, any other ends settled; commands are only appended |
| Reconciler.SettlePresent | themeswitch/functions.py:299-319 | A present task ends settled, and other settled tasks stay settled; commands are only appended |
| Reconciler.SettleRecreate | themeswitch/functions.py:309-314 | The first command issued is `Create` for this mode at the record's time, then the intended check re-runs; earlier commands stay in the log |
| Reconciler.SettleChange | themeswitch/functions.py:315-319 | The first command issued is `Change` of this mode to the given state, then the intended check re-runs; earlier commands stay in the log |
| LegacyReconciler.LegacyCheckTasks | theme_switch.py:126-154 | On any record the script's validator accepted (`main`, lines 153-154): a pass raises KeyError when its mode lacks a start field and AttributeError when its task is enabled at another time, after the earlier pass's effects and with none of its own. Otherwise missing tasks are created at the record's time whatever the flag, and for an existing task the record adopts the task's flag and is written back |
| LegacyReconciler.LegacyPass | theme_switch.py:129-149 | One mode of the script's check: KeyError for a missing start field; otherwise create a missing task, or mirror an existing one into the record and write it, or raise on a differing time |
| LegacyReconciler.AcceptedReady | theme_switch.py:48-64 | A record the script's validator accepted has both mode records as mappings with a bool flag, so its passes are modelled whenever the start fields present format to a usable start text |
| LegacyReconciler.MirroredKeepsOther | theme_switch.py:143-147 | The first pass leaves the second mode's record as it was, so the second pass raises, or not, as it would have on the record given |
| LegacyReconciler.ExistingPass | theme_switch.py:135-149 | After the query, a missing start field raises KeyError and a differing time raises AttributeError, both before anything is written; otherwise the task's flag is adopted and the record is written |
| LegacyReconciler.CreateMissing | theme_switch.py:129-134 | A missing task is created enabled at `"start_hour:start_minute"`, and only that task |
| LegacyReconciler.TimeOverwrite | theme_switch.py:142-145 | The time overwrite as written: it raises AttributeError exactly when the next-run time differs from the record's; it never yields a new time |
| LegacyReconciler.TimeOverwriteRaises | theme_switch.py:142-145 | Any enabled task whose time differs from the record's makes the script raise |
| LegacyReconciler.OverwriteOnTask | theme_switch.py:142-145 | On a real task, the overwrite raises exactly on a time conflict |
| LegacyReconciler.WithFlag | theme_switch.py:146-147 | Setting a mode's flag changes that mode's plan flag only, and is the identity when the flag already agrees |
| LegacyReconciler.SetModeField | theme_switch.py:143-147 | `settings[mode][key] = x` puts `x` in that mode's record and leaves the other mode alone |
| LegacyReconciler.SetScheduleFlag | theme_switch.py:146-147 | Writing the flag changes that mode's plan flag and nothing else |
| LegacyReconciler.SetStartFields | theme_switch.py:144-145 | Writing the hour and minute changes that mode's plan time to `hour:minute` and nothing else |
| LegacyReconciler.Adopted | theme_switch.py:129-134 | After the script's pass a task is present: unchanged if it existed, else created enabled at the record's time |
| LegacyReconciler.Mirrored | theme_switch.py:135-149 | The record after one pass: the task's enabled flag becomes the mode's schedule flag; a missing task leaves the record unchanged |
| LegacyReconciler.LegacyResult | theme_switch.py:126-149 | The record after both passes has each mode's time kept and its flag mirrored from the task |
| LegacyReconciler.AdoptTime | theme_switch.py:142-145 | The intended overwrite: a differing next-run time is split into hour and minute; it raises IndexError only for a time without a colon |
| LegacyReconciler.AdoptTimeRoundTrip | theme_switch.py:142-145 | For a clock time the adopted hour and minute join back into the task's time |
| LegacyReconciler.AdoptOnTask | theme_switch.py:142-145 | On a real task, the intended overwrite yields the task's time exactly on a conflict, and raises only for an unadoptable time |
| LegacyReconciler.Adopting | theme_switch.py:135-149 | The intended record after one pass: the mode's plan becomes the task's, and the other mode is untouched |
| LegacyReconciler.AdoptingResult | theme_switch.py:126-149 | The intended record after both passes holds both tasks' plans |
| LegacyReconciler.AdoptingPass | theme_switch.py:129-149 | One mode of the intended script check |
| LegacyReconciler.AdoptingExisting | theme_switch.py:135-149 | An existing task's time and flag are adopted and the record is written |
| LegacyReconciler.AdoptingCheckTasks | theme_switch.py:126-149 | The intended script check: the record then mirrors the scheduler, with writes and commands as in the source |
| LegacyReconciler.AdoptingMirrors | theme_switch.py:139-147 | For clock times, the intended record's plan is the task's own time and flag |
| LegacyReconciler.LegacyMirrors | theme_switch.py:139-147 | Without a time conflict, the script as written already mirrors the task |
| ModeSelection.ThemeEffects | themeswitch/functions.py:254-274 | `change_sys_theme(**values)` sets brightness, wallpaper, then the apps and the system theme from `os_theme`; a record without one of the three parameters raises TypeError |
| ModeSelection.RecordSwitches | themeswitch/functions.py:254-274 | A record with the three parameters, whose `os_theme` names a mode, switches the system to that mode |
| ModeSelection.ChosenKey | theme_switch.py:159-165 | `-d` wins over `-l`; with no flag, light on selects `dark_mode` and light off selects `light_mode` |
| ModeSelection.ChosenMode | theme_switch.py:159-165 | The mode whose record is applied is the one named by the chosen key |
| ModeSelection.MainEffects | theme_switch.py:159-165 | The definition of the end of `main`: look up the chosen key and apply `change_sys_theme(**values)`. ValidMainSwitches and LegacyMainSwitches are proved about it |
| ModeSelection.ValidSwitches | themeswitch/functions.py:101-119 | Either record of a valid document switches the system to its own mode |
| ModeSelection.DefaultSwitches | themeswitch/functions.py:68-83 | Either default record switches the system to its own mode |
| ModeSelection.ValidMainSwitches | theme_switch.py:152-167 | Under the package validator, `main` always switches to the chosen mode |
| ModeSelection.LegacyMainSwitches | theme_switch.py:152-167 | Under the script's own validator, `main` switches to the chosen mode exactly when that record has a wallpaper; otherwise it raises TypeError |
| ModeSelection.LegacyAcceptsUnswitchable | theme_switch.py:48-64 | A record without a dark wallpaper passes the script's validator, yet `main -d` raises TypeError on it |
| ModeSelection.ChangeSystemMode | themeswitch/gui.py:115-122 | The toggle applies `dark_mode` when light mode is on, else `light_mode`, after the window's own theme; the record is loaded (and healed) by `load_settings`. The effects are exactly the window theme followed by `change_sys_theme` of the chosen mode's record: the stored record when it is valid, else the default |
| ModeSelection.LegacyChangeSystemMode | theme_switch_gui.py:102-109 | The script's toggle: the same mode choice, with the script's loader; a record that cannot switch raises after the window's theme changed. On success the effects are exactly the window theme followed by `change_sys_theme` of the chosen mode's record: the accepted stored record, else the default |
| ModeSelection.LegacySwitchOutcome | theme_switch_gui.py:102-109 | The definition of how the script's toggle ends for a stored file: the loader's exception escapes, a healed file applies the default, and an accepted record applies exactly when the chosen mode has a wallpaper. LegacyChangeSystemMode is proved against it |
| SettingsForm.ReadTab | themeswitch/gui.py:345-353 | One tab read: it passes exactly when the mode record is a mapping with the five fields, then shows each field or its default; otherwise KeyError for a missing key and TypeError for a non-mapping |
| SettingsForm.ReadComplete | themeswitch/gui.py:343-353 | The read loop passes exactly when both mode records have the five fields, and then fills both tabs and sets `spin_state` from each schedule flag |
| SettingsForm.ReadFrom | themeswitch/gui.py:343-353 | The definition of the read loop over the first n modes, stopping at the first tab that raises; keeps two tabs and two spin states. ReadComplete, ReadNext and ReadStops are proved about it |
| SettingsForm.ReadNext | themeswitch/gui.py:344-353 | Each iteration of the read loop updates only its own tab |
| SettingsForm.ReadStops | themeswitch/gui.py:343-353 | A read that raises on one tab ends the loop there: later tabs are not read |
| SettingsForm.ReadSpinMatches | themeswitch/gui.py:350-353 | After a read, `spin_state` is `readonly` exactly for a tab whose schedule box is checked |
| SettingsForm.ReadEncoded | themeswitch/gui.py:343-353 | A typed record is shown field by field, with falsy fields replaced by 0, "", "09", "30" and False |
| SettingsForm.DefaultRead | themeswitch/gui.py:354-356 | After the loader heals a missing file, the tabs show the default record with both spinboxes disabled |
| SettingsForm.EncodedLookups | themeswitch/gui.py:345-349 | Each field a tab reads from a typed record is the record's own field |
| SettingsForm.SaveRecord | themeswitch/gui.py:331-337 | A mode record that is not a mapping makes the save raise TypeError |
| SettingsForm.SaveRecordWrites | themeswitch/gui.py:331-337 | Brightness, start hour and minute and the schedule flag come from the form, `os_theme` becomes the tab index, the wallpaper is replaced only by a truthy path, other keys are untouched, and no key is added to a complete record or removed |
| SettingsForm.SaveEntriesGet | themeswitch/gui.py:331-337 | The value of every key after the six assignments, in the source's order |
| SettingsForm.SaveEntriesKeys | themeswitch/gui.py:331-337 | The six assignments add no key to a record that has all six |
| SettingsForm.SaveEntries | themeswitch/gui.py:331-337 | The definition of the six assignments of one save iteration, in source order, with the wallpaper written only for a truthy path. SaveEntriesGet and SaveEntriesKeys are proved about it |
| SettingsForm.SaveEffect | themeswitch/gui.py:326-338 | The definition of what `save_settings` leaves: FileNotFoundError with nothing written, an emptied file after a failed loop, or the dumped record. Settings.SaveSettings is proved against it, and SaveThenRead and SavedWallpapersSilence about it |
| SettingsForm.SaveStops | themeswitch/gui.py:330-337 | A save that raises on one mode record ends the loop with that error |
| SettingsForm.SaveEncodedMode | themeswitch/gui.py:331-337 | On a typed mode record, the save writes the form's typed fields and keeps the stored wallpaper when the form's is empty |
| SettingsForm.SaveModeEncoded | themeswitch/gui.py:330-337 | One save iteration updates its own mode of a typed record and leaves the other |
| SettingsForm.SaveEncoded | themeswitch/gui.py:326-338 | The save loop on a typed record gives the typed record with both tabs written in |
| SettingsForm.SavedConfigValid | themeswitch/gui.py:326-338 | Saving tabs holding Tk-typed values (int brightness in 0..100, string paths and times, bool flags) keeps a valid record valid |
| SettingsForm.SavedShown | themeswitch/gui.py:331-337 | A tab shown from a valid mode record with its times set saves back to that record |
| SettingsForm.ReadThenSave | themeswitch/gui.py:326-353 | Opening the window on a valid record with its times set, then saving without an edit, writes the same record back |
| SettingsForm.SaveThenRead | themeswitch/gui.py:326-353 | Saving Tk-typed tabs into a valid record and reopening the window shows the saved tabs, with an empty path showing the stored wallpaper |
| SettingsForm.EncodedPlan | themeswitch/functions.py:290 | A typed mode record plans `"start_hour:start_minute"` with its schedule flag |
| SettingsForm.SavedPlan | themeswitch/gui.py:331-337 | After the save, the dump and the next load, a tab's record plans the tab's own time and flag |
| SettingsForm.ReloadedPlans | themeswitch/gui.py:326-338 | After the save, the next load reads both tabs' schedules |
| SettingsForm.AppliedTaskSettles | themeswitch/gui.py:366-372 | The task a tab leaves behind is settled against that tab's plan; with the schedule on, it is enabled at the tab's time |
| SettingsForm.ApplySettles | themeswitch/gui.py:363-372 | After apply on a valid record, the file holds a valid record whose schedules are the tabs' own, and the tasks agree with them, so the intended check of the next run has nothing to repair |
| SettingsForm.ApplyTab | themeswitch/gui.py:364-372 | One tab: with the box checked, ENABLE then a create at `"hour:minute"` for that task only; otherwise only DISABLE |
| SettingsForm.TabCommands | themeswitch/gui.py:366-372 | The definition of the commands for one tab: ENABLE then a create at `hour:minute` when the box is checked, else DISABLE. ApplyTab is proved against it |
| SettingsForm.AppliedTask | themeswitch/gui.py:366-372 | The definition of the task a tab leaves: enabled at the tab's time when checked, else disabled with its old time, or still missing. AppliedTaskSettles is proved about it |
| SettingsForm.Settings.constructor | themeswitch/gui.py:182-200 | Empty Tk variables, `spin_state` disabled on both tabs, spinboxes in their initial state |
| SettingsForm.Settings.ReadSettings | themeswitch/gui.py:340-356 | The tabs and `spin_state` become what the read loop yields; a missing file is healed by the package loader (`legacy` false) or the script's (`legacy` true, theme_switch_gui.py:281-297) and the read is retried, showing the default |
| SettingsForm.Settings.Open | themeswitch/gui.py:207-266 | Opening the window reads the settings, then configures each tab's spinboxes from `spin_state` |
| SettingsForm.Settings.UpdateSpin | themeswitch/gui.py:358-361 | Toggling a tab's box sets only that tab's spinboxes, `readonly` when checked and disabled otherwise (also theme_switch_gui.py:299-302) |
| SettingsForm.Settings.SaveSettings | themeswitch/gui.py:326-338 | A missing file raises FileNotFoundError with nothing written; otherwise the file is emptied, and then either the save raises and leaves it empty or the updated record is dumped into it (also theme_switch_gui.py:267-279) |
| SettingsForm.Settings.ApplyChanges | themeswitch/gui.py:363-372 | Saves first; a failed save stops before any task command; otherwise each tab in turn enables and recreates, or disables, its own task (also theme_switch_gui.py:304-313) |
| WallpaperChecks.UnsetFalsy | themeswitch/gui.py:148-150 | `path or ''` equals `''` exactly when the stored path is falsy |
| WallpaperChecks.CheckWallpaper | themeswitch/gui.py:144-160 | A missing file or an unreadable field raises, dark first. There is no warning exactly when both paths are truthy. The dark tab opens exactly when the dark path is falsy, and "both missing" is reported exactly when both are |
| WallpaperChecks.FreshInstallWarns | themeswitch/gui.py:150-152 | On a fresh install both wallpapers are reported missing and the dark tab opens |
| WallpaperChecks.SavedWallpapersSilence | themeswitch/gui.py:144-160 | After a save, the start-up check is silent exactly when each tab was given a path or already had a wallpaper |
| WallpaperChecks.DumpTruthy | themeswitch/gui.py:338 | Dumping keeps a stored value's truthiness |
| WallpaperChecks.EncodedWallpaper | themeswitch/gui.py:148-149 | `settings[mode]['wallpaper']` of a typed record is that mode's wallpaper |
| WallpaperChecks.CheckWallpaperSize | themeswitch/gui.py:283-299 | The resolution warning when both dimensions fall short; the width or height warning when only that one does; none otherwise |
| WallpaperChecks.SizeWarningNamesShortfall | themeswitch/gui.py:283-299 | The warning shown names exactly the set of dimensions that fall short of the screen |
| WallpaperChecks.LargerImageWarnsLess | themeswitch/gui.py:283-299 | A larger image never falls short in more dimensions, and a warning-free image stays warning-free when it grows |
| YamlDump.SortEntriesSorts | themeswitch/functions.py:86 | `yaml.dump` sorts mapping keys: the result is sorted and a permutation of the entries |
| YamlDump.SortEntriesKeepsSorted | themeswitch/functions.py:86 | An already sorted mapping is dumped in its own order |
| YamlDump.DumpSortsMapping | themeswitch/functions.py:86 | A dumped mapping is sorted and holds exactly the dumped entries |
| YamlDump.Dump | themeswitch/functions.py:86 | The definition of what the next load sees after `yaml.dump`: every mapping sorted by key, lists and scalars kept. DumpSortsMapping, DumpNotNull and DumpKeepsValid are proved about it |
| YamlDump.InsertPermutes | themeswitch/functions.py:86 | Inserting one entry into the sorted list adds exactly that entry |
| YamlDump.InsertSorted | themeswitch/functions.py:86 | Inserting into a sorted list keeps it sorted |
| PyText.JoinSplit | themeswitch/functions.py:303 | `sep.join(s.split(sep)) == s` |
| PyText.Split | themeswitch/functions.py:303 | `s.split(sep)` with one separator character gives at least one piece and no piece holds the separator; JoinSplit proves the round trip |
| PyText.FormatValue | themeswitch/functions.py:291 | The definition of the text an f-string substitutes for a string, int, bool or None; floats and containers (VOther, VList, VMap) are not modelled |
| PyText.Strip | themeswitch/functions.py:302 | `str.strip()` gives a slice of the input with only blanks outside it and no blank at either of its own ends: exactly the outer blank runs are removed |
| PyText.RemoveChar | themeswitch/functions.py:302 | `replace('"', '')` leaves no quote, never lengthens, keeps every other character exactly as often as it occurred, and leaves a string without that character unchanged (with RemoveCharConcat this fixes the order of what remains) |
| PyText.RemoveCharConcat | themeswitch/functions.py:302 | Removing a character distributes over concatenation |
| PyText.DropLast | themeswitch/functions.py:307 | For n > 0, `s[:-n]` is `s` without its last n characters, or empty when `s` is shorter |

## Left out

- Windows itself (the registry, WMI, the wallpaper API and process execution) is not modelled. Its effects become entries of an effect list or of the scheduler's command log.
- YAML text is not modelled: loading gives a `Value`, and dumping sorts the keys of every mapping. Quoting, anchors and aliases are left out.
- Tk is not modelled: no widgets, theme loading, message boxes, file dialogs, image previews, or the About and log windows. A message box is modelled by the warning it would show.
- Tk variables are not coerced: a variable holds exactly the value it was set to. Tk-typed values (`TkForm`) are a requirement of the theorems about saving, not of the operations.
- The image size and the screen size, which PIL and Tk supply, are parameters of `WallpaperChecks.CheckWallpaperSize`.
- `get_logger` and every logging call are left out, as are the `__main__` plumbing of the package and the argument parser.
- SCHTASKS is modelled as echoing its `/ST` text: any start text of printable characters without a blank, comma or quote (`Token`) is stored unchanged and reported back as the next run `date <text>:00`. Real SCHTASKS rejects or normalises a start time that is not two-digit `HH:MM` (such as `7:00`, which the package validator lets through), and may print 12-hour or locale-dependent next-run times. None of that is modelled, so the termination and in-sync results of Reconciler.CheckTasks also cover start texts on which the real program would keep recreating the task.
- The "Running" task status and the letter case of task names are left out. A task is either present (enabled or disabled) or missing.
- `set_position` and `whole_values_only` are left out, because they are float arithmetic on widget geometry and the scale.
- SettingsForm.Settings.ApplyChanges: requires both tabs' start fields to be formattable, because the f-string needs them. Tk variables always are, while the Value datatype allows a mapping or a list.
- SettingsForm.Settings.ReadSettings: has a `legacy` flag that selects which loader heals a missing file. The two front ends are otherwise identical, and they are modelled by one class.
- Reconciler.CheckTasks: requires both start fields to be strings, ints, bools or None whose `hour:minute` text is a `Token` (`Reconcilable`), which excludes records the package validator accepts. A float, list or mapping start field is outside the model, because `FormatValue` gives it no text (the source would format a float such as 7.5 as `7.5:00`). So is a start text with a blank, a quote, a comma or a non-ASCII character. On those the source behaves differently: for a blank or a quote, the queried time of an enabled task never matches, so the task is recreated and the check recurses without end; for a comma, the next-run column is cut at the comma, and `time[1]` raises IndexError; for non-ASCII text, the echo of real SCHTASKS is not modelled.
- LegacyReconciler.LegacyCheckTasks: requires that start fields, where present, are strings, ints, bools or None whose `hour:minute` text is a `Token` (`PassReady`). A start field holding a list or a mapping, whose f-string text is not modelled, or a start text with a blank, comma or quote, is outside the model. A missing start field is modelled: it raises KeyError.
- An unparseable settings.yaml is not modelled: the stored document is a `Value` or nothing. In the source `yaml.load` then raises, and neither loader heals the file, because both catch only FileNotFoundError (themeswitch/functions.py:60-66, theme_switch.py:18-24).

## Findings

| source | as written | input that shows it | evidently intended | confidence | as-written member | corrected member |
|---|---|---|---|---|---|---|
| themeswitch/functions.py:291-305 | A missing task whose schedule is off is not created. It falls into the query branch, where the empty query line makes `output[-2]` raise IndexError. | A fresh install: the default record (both schedules off) and no tasks. | A missing task with its schedule off is left missing, and the check moves on to the next mode. | not executed | Reconciler.CheckTasks, Reconciler.FreshInstallRaises | Reconciler.CheckTasksCorrected |
| theme_switch.py:142-145 | `time[:-3]` slices the token list instead of the time string, and `split` is then called on a list, raising AttributeError. | An enabled task whose next run is at 08:00 while the record says 07:00. | The task's `HH:MM` is split into hour and minute and written into the record. | not executed | LegacyReconciler.TimeOverwrite, LegacyReconciler.TimeOverwriteRaises | LegacyReconciler.AdoptTime, LegacyReconciler.AdoptTimeRoundTrip, LegacyReconciler.AdoptingCheckTasks |
| theme_switch.py:54-64 | The script's validator raises KeyError when it reaches a missing `brightness`, `enable_schedule` or `os_theme`, but never asks for `wallpaper` (nor for the start fields), so a mode record without `wallpaper` passes. `main` then raises TypeError at `change_sys_theme(**values)`. | A record whose dark mode has no `wallpaper` key, run with `-d`. | Only records that every mode can be applied from are accepted, as the package validator does. | not executed | ModeSelection.LegacyAcceptsUnswitchable, ModeSelection.LegacyMainSwitches | ModeSelection.ValidMainSwitches |
