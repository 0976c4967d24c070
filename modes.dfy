/** The two appearance profiles and the names the program gives them. */
module Modes {

  datatype Mode = Dark | Light

  /** Position of the mode in the settings record and in `enumerate(...)` loops: 0 dark, 1 light. */
  function Index(m: Mode): (i: nat)
    ensures i < 2
  {
    if m == Dark then 0 else 1
  }

  function ModeAt(i: nat): (m: Mode)
    requires i < 2
    ensures Index(m) == i
  {
    if i == 0 then Dark else Light
  }

  /** The opposite profile. */
  function Other(m: Mode): (o: Mode)
    ensures o != m
  {
    if m == Dark then Light else Dark
  }

  /** Top-level key of the mode's record in settings.yaml. */
  function ModeKey(m: Mode): string
  {
    if m == Dark then "dark_mode" else "light_mode"
  }

  /** Full path of the mode's task in the Windows Task Scheduler. */
  function TaskPath(m: Mode): string
  {
    if m == Dark then "\\Theme Switch\\Change to Dark Mode" else "\\Theme Switch\\Change to Light Mode"
  }
}
