# Battery Tracker engine in Dafny

Battery Tracker is a PyQt tray program that shows battery state. It ships in
four releases: `Battery-Tracker.py` (1.0), `Battery-Tracker-v2.py` (2.0),
`Battery-Tracker-v3.py` (3.0) and `Battery-Tracker-v3.1.py` (3.1). Under
the widgets, every release runs the same small bookkeeping engine:

- **Remaining-time label** (`formatTime` and the label choice). The label is
  "Charging" while plugged in, "Fully Charged" at 100 % on battery, and
  otherwise "`h` H : `m` Min", where h = s div 3600 and m = (s mod 3600) div 60.
- **Time buckets** (`updateTimes`). Each tick adds the time since `startTime`
  to `totalInUseTime` and to `totalBatteryTime` or `totalPluggedInTime`. In
  3.0 and 3.1 an option also zeroes the other bucket. The menu resets zero
  one bucket, or all of them.
- **History table** (`updateBattery`). A row (clock, percent,
  Plugged/Unplugged and, from 2.0 on, the remaining label) is appended only
  when the percentage differs from `prevPercent`. Emptying the table keeps
  `prevPercent`.
- **Battery care** (`updateStatus`, `showNotification`). Below 21 %
  unplugged the program asks for the charger. Above 90 % plugged in (80 % in
  3.1) it asks to unplug. Release 1.0 ignores the plugged state. A request
  plays a sound. Its tray message is gated by `batteryCareNotif` from 3.0 on.
- **Settings store** (`SettingsStatus`: an sqlite row in 3.0, a json file in
  3.1). It holds five booleans with defaults True, True, False, True, True.
  Getters reload the record first; setters write the whole record through.
- **Single-instance flag** (`ProgramStatus`, 3.0). It persists a `running`
  flag with init, start, stop and isRunning.

The modules follow that split:

- `Versions`: what differs between releases.
- `TimeFormat`: the label.
- `Thresholds`: battery care.
- `Accounting`: the time buckets.
- `History`: the history table.
- `Settings`: the settings store.
- `ProgramGuard`: the single-instance flag.
- `Tracking`: the `Tracker` class. It is the engine object of one release,
  with one method per callback. It holds the bookkeeping fields of the four
  windows together, not all of which exist in every release:
  - `startTime`, the three totals, `prevPercent` and the table rows exist in
    all four releases.
  - `batteryRemaining` exists from 2.0 on. Release 1.0 has no such field, and
    its rows have no remaining column.
  - The in-memory `batteryCare` flag exists in 1.0 and 2.0 only. From 3.0 on
    battery care is the persisted option, and the field goes unread.
  - The `SettingsStatus` reference exists from 3.0 on. It is null before.

Notes on the modelling:

- Sensor readings, `datetime.now()` and the "HH:mm" clock text are
  parameters of the methods.
- A persisted record is a separate object. Several `SettingsStatus` or
  `ProgramStatus` objects may share it, as the program's windows and `main`
  do.
- Durations and clock readings are signed integers, because `timedelta` is
  signed and the program never clamps a negative span.
- `secsleft` is an integer. Python's `//` and `%` by 3600 and 60 are floor
  operations. For positive divisors they agree with Dafny's `/` and `%`, so
  negative values format as Python formats them.

The threshold check keeps no memory between calls. It fires on every call
while the condition holds (`Thresholds.LowBatteryRefires`).

The model follows the code in two places where what it does differs from what
its names and labels suggest:

- In 3.0 and 3.1 the reset option zeroes the inactive bucket on every tick,
  not only on a change of charger state. The guard meant to skip a bucket
  that is already zero compares `str(label.textFormat())`, an enum, with
  "0:00:00". The two are never equal.
- With that option on, which is its default, "total = battery + plugged in"
  does not hold (`Accounting.ResetOptionBreaksBalance`). Without it, the
  equation holds until a single-bucket reset (`Accounting.RunKeepsDrift`,
  `Accounting.SingleResetsShiftDrift`).

## Model

| member | source | states |
|---|---|---|
| `TimeFormat.FormatTime` | Battery-Tracker-v3.py:516-519 | the label always ends in " Min", so it is never one of the two fixed words; what it reads back as is stated by the next two rows |
| `TimeFormat.FormatTimeRoundTrip` | Battery-Tracker-v3.py:516-519 | the text `formatTime(s)` writes reads back as exactly the pair (s div 3600, (s mod 3600) div 60), Python's floor division |
| `TimeFormat.FormatTimeMeaning` | Battery-Tracker-v3.1.py:433-436 | the label names hours h and minutes m with 0 <= m < 60, and 3600h + 60m <= s < 3600h + 60m + 60: the estimate rounded down to a whole minute |
| `TimeFormat.FormatTimeExample` | Battery-Tracker-v2.py:248-251 | 5400 seconds format as "1 H : 30 Min" |
| `TimeFormat.IntStringRoundTrip` | Battery-Tracker-v3.py:519 | the integer text inside the f-string (optional minus sign, no leading zeros) reads back as the same integer |
| `TimeFormat.RemainingLabel` | Battery-Tracker-v3.py:592-601 | the label is "Charging" iff plugged in, and "Fully Charged" iff on battery at 100 % (also 2.0 lines 335-344, 3.1 lines 509-518) |
| `TimeFormat.RemainingLabelMeaning` | Battery-Tracker-v2.py:335-344 | the label reads as a formatted time exactly when it is neither fixed word, and then as the hours and minutes of `secsleft` |
| `Thresholds.Decide` | Battery-Tracker-v3.py:571-583 | a plug-in request only below 21 %, an unplug request only above the high threshold, and nothing inside the band 21..high |
| `Thresholds.DecideExactly` | Battery-Tracker-v3.1.py:488-500 | both directions: Plugg iff percent < 21 and (1.0 or unplugged); UnPlugg iff percent > 90, or 80 in 3.1, and (1.0 or plugged) and not Plugg |
| `Thresholds.Evaluate` | Battery-Tracker-v3.py:550-585 | with battery care off nothing happens; with it on, the sound is the threshold decision; a message is always the same request as the sound; from 3.0 on it is shown iff `batteryCareNotif` is set, and always before 3.0 |
| `Thresholds.EvaluateAll` | Battery-Tracker-v3.py:585 | a run of rescheduled `updateStatus` calls gives one alert per sample, each decided on that sample alone |
| `Thresholds.FollowingAdviceSilences` | Battery-Tracker-v2.py:313-326 | from 2.0 on, a plug-in request comes only while unplugged and an unplug request only while plugged, and switching the charger state silences it |
| `Thresholds.FirstReleaseIgnoresCharger` | Battery-Tracker.py:301-320 | 1.0 asks to plug in at 15 % with the charger connected and to unplug at 95 % without it, where 2.0 stays quiet |
| `Thresholds.HighThresholdLowered` | Battery-Tracker-v3.1.py:495 | at 85 % plugged in only 3.1 asks to unplug; at 80 % it does not |
| `Thresholds.LowBatteryRefires` | Battery-Tracker-v3.py:565-585 | on battery, 25, 20, 15, 25 % gives a plug-in request at 20 and again at 15, and none at either 25 |
| `Accounting.Tick` | Battery-Tracker-v3.py:609-634 | one tick adds the span to the total in use and to the bucket of the sampled charger state; the other bucket is zeroed when the reset option is on and is unchanged when it is off |
| `Accounting.TickKeepsDrift` | Battery-Tracker-v2.py:352-368 | without the reset option a tick keeps total in use minus (battery + plugged-in) unchanged |
| `Accounting.TickWithResetZeroesInactive` | Battery-Tracker-v3.py:616-632 | with the reset option on, a plugged tick leaves battery time 0 and an unplugged tick leaves plugged-in time 0 |
| `Accounting.TickMonotone` | Battery-Tracker.py:322-339 | a non-negative span never lowers the total or the active bucket, and without the option leaves the inactive bucket as it was |
| `Accounting.Run` | Battery-Tracker-v3.1.py:551-553 | a run of rescheduled `updateTimes` calls leaves `startTime` at the last clock reading; an empty run changes nothing |
| `Accounting.RunTelescopes` | Battery-Tracker-v3.1.py:526-551 | over any run of ticks the total in use grows by the last clock reading minus the first `startTime` |
| `Accounting.RunKeepsDrift` | Battery-Tracker-v2.py:330-370 | without the reset option any run of ticks keeps the drift, so from zero total in use equals battery plus plugged-in time after every run |
| `Accounting.ResetInUse` | Battery-Tracker-v3.py:521-523 | `totalTimeReset` zeroes the total in use and leaves both buckets |
| `Accounting.ResetBattery` | Battery-Tracker-v3.py:525-527 | `totalBatteryTimeReset` zeroes battery time only |
| `Accounting.ResetPluggedIn` | Battery-Tracker-v3.py:529-531 | `totalPluggedInTimeReset` zeroes plugged-in time only |
| `Accounting.ResetAll` | Battery-Tracker-v3.py:536-539 | the three time resets of `allReset` leave all three totals at zero |
| `Accounting.AllResetRestarts` | Battery-Tracker-v2.py:278-282 | after `allReset`, ticks without the option accumulate from zero: total = battery + plugged-in = time since the reset's `startTime` |
| `Accounting.SingleResetsShiftDrift` | Battery-Tracker-v2.py:263-273 | zeroing one bucket raises the drift by that bucket's time; zeroing the total lowers it by the old total |
| `Accounting.ResetOptionBreaksBalance` | Battery-Tracker-v3.1.py:530-549 | with the option on, 5 units plugged in then 3 on battery give total 8, battery 3 and plugged-in 0 |
| `History.MakeRow` | Battery-Tracker-v3.py:644-662 | a row carries the clock text, the percentage, "Plugged" iff plugged in, and the remaining label from 2.0 on (1.0 rows have three columns, Battery-Tracker.py lines 343-365) |
| `History.Record` | Battery-Tracker-v3.py:638-666 | the table grows by exactly this row iff its percentage differs from `prevPercent` (always when that is still None), else it is unchanged; earlier rows are never changed; `prevPercent` becomes the percentage |
| `History.Clear` | Battery-Tracker-v3.py:533-534 | `tableWidgetReset` empties the rows and keeps `prevPercent` |
| `History.RecordAll` | Battery-Tracker-v3.py:664-666 | a run of rescheduled `updateBattery` calls keeps every earlier row, appends at most one row per sample, and leaves `prevPercent` at the last sample's percentage |
| `History.RecordKeepsConsistent` | Battery-Tracker-v3.1.py:555-583 | recording keeps the table invariant: no two neighbouring rows with equal percentages, and `prevPercent` is the last row's percentage |
| `History.ClearKeepsConsistent` | Battery-Tracker-v2.py:275-276 | an emptied table still satisfies that invariant although `prevPercent` is kept |
| `History.RecordAllSqueezes` | Battery-Tracker-v2.py:372-400 | a run of `updateBattery` calls appends exactly the sampled percentages with adjacent repeats removed, the first compared with `prevPercent` |
| `History.RecordAllAppendsRows` | Battery-Tracker-v3.py:644-664 | a run of `updateBattery` calls appends the candidate rows themselves, exactly those whose percentage differs from the one before (the first compared with `prevPercent`), after the old rows |
| `History.SqueezeRowsPercents` | Battery-Tracker-v2.py:378-398 | the percentage column of those appended rows is the squeezed percentage sequence |
| `History.SqueezeHasNoRepeats` | Battery-Tracker-v3.py:644 | what a run appends has no neighbouring repeats and does not start with `prevPercent` |
| `History.DuplicatesSuppressed` | Battery-Tracker.py:343-365 | sampling 50, 50, 49, 49, 80 into a fresh table logs three rows: 50, 49, 80 |
| `History.ClearedTableSkipsRepeat` | Battery-Tracker-v3.1.py:450-457 | after `allReset`, a sample repeating the last logged percentage is not logged |
| `Settings.With` | Battery-Tracker-v3.py:175-211 | a setter changes its own option to the value given and no other |
| `Settings.Encode` | Battery-Tracker-v3.py:151-173 | `saveSettings` writes all five keys, each with its in-memory value |
| `Settings.Decode` | Battery-Tracker-v3.1.py:103-113 | a present record yields each key's stored value, or that key's default (True, True, False, True, True) when absent |
| `Settings.Loaded` | Battery-Tracker-v3.py:117-149 | a missing record loads as the defaults, a present one as its values |
| `Settings.AfterLoad` | Battery-Tracker-v3.1.py:114-120 | after a load the record exists; a present record is not rewritten |
| `Settings.DecodeEncode` | Battery-Tracker-v3.1.py:122-131 | save followed by load restores every option |
| `Settings.LoadIdempotent` | Battery-Tracker-v3.py:179-181 | a second reload reads the same options and leaves the record as the first left it |
| `Settings.SetThenGet` | Battery-Tracker-v3.1.py:133-171 | a setter followed by the matching getter returns the value set; every other getter returns what it returned before |
| `Settings.EmptyRecordReadsDefaults` | Battery-Tracker-v3.1.py:107-113 | a json object lacking all five keys reads as the defaults |
| `Settings.SettingsStatus.constructor` | Battery-Tracker-v3.py:96-101 | a new settings object loads the shared record, writing the defaults when it is missing |
| `Settings.SettingsStatus.Load` | Battery-Tracker-v3.py:117-149 | memory holds the loaded options; the record is the defaults when it was missing, else unchanged |
| `Settings.SettingsStatus.Save` | Battery-Tracker-v3.1.py:122-131 | the whole record is replaced by the five in-memory options |
| `Settings.SettingsStatus.Set` | Battery-Tracker-v3.py:175-211 | one option changes in memory, the others stay, and the whole record is written through |
| `Settings.SettingsStatus.Get` | Battery-Tracker-v3.py:179-217 | the getter reloads (persisting the defaults if the record is missing) and returns the reloaded option |
| `Settings.WriteIsSeenByOtherReader` | Battery-Tracker-v3.py:175-181 | what one settings object sets, another object over the same record returns from its getter |
| `ProgramGuard.ProgramStatus.constructor` | Battery-Tracker-v3.py:38-65 | row 1 is inserted with `running = 0` only when missing; an existing flag is kept |
| `ProgramGuard.ProgramStatus.Start` | Battery-Tracker-v3.py:67-73 | `startProgram` sets the flag when row 1 exists and changes nothing when it is missing |
| `ProgramGuard.ProgramStatus.Stop` | Battery-Tracker-v3.py:75-81 | `stopProgram` clears the flag when row 1 exists and changes nothing when it is missing |
| `ProgramGuard.ProgramStatus.IsRunning` | Battery-Tracker-v3.py:83-92 | true iff row 1 exists with the flag set; a missing row reads as not running |
| `ProgramGuard.Launch` | Battery-Tracker-v3.py:904-927 | `main` starts iff the flag was not set, and the flag is set afterwards either way |
| `ProgramGuard.Close` | Battery-Tracker-v3.py:668-671 | closing the main window leaves the flag cleared |
| `ProgramGuard.LaunchCloseLaunch` | Battery-Tracker-v3.py:67-92 | after `startProgram` the program counts as running, after `stopProgram` it does not, so launch, close, launch starts both times |
| `Tracking.Tracker.constructor` | Battery-Tracker-v3.py:221-240 | a new engine has zero buckets, an empty table, no `prevPercent`, no remaining label, `startTime` = now and, in 1.0 and 2.0, the in-memory battery-care flag on; from 3.0 on battery care is the persisted option, which the constructor leaves alone |
| `Tracking.Tracker.UpdateStatus` | Battery-Tracker-v3.py:565-585 | the alert is the battery-care evaluation for the sample, with care and notification flags as the getters reload them (the in-memory flag in 1.0 and 2.0); the tracker itself is unchanged |
| `Tracking.Tracker.UpdateTimes` | Battery-Tracker-v3.py:587-636 | the buckets become one accounting tick over now minus the old `startTime`, with the persisted reset option; `startTime` becomes now; from 2.0 on the remaining label is refreshed; the table is untouched (also 1.0 lines 322-341, 2.0 lines 330-370) |
| `Tracking.Tracker.UpdateBattery` | Battery-Tracker-v3.py:638-666 | the table and `prevPercent` become the recording of this sample's row; the table invariant is kept; buckets and label are untouched (also 1.0 lines 343-367) |
| `Tracking.Tracker.TotalTimeReset` | Battery-Tracker.py:257-259 | only the total in use becomes zero |
| `Tracking.Tracker.TotalBatteryTimeReset` | Battery-Tracker-v2.py:267-269 | only battery time becomes zero |
| `Tracking.Tracker.TotalPluggedInTimeReset` | Battery-Tracker-v3.1.py:446-448 | only plugged-in time becomes zero |
| `Tracking.Tracker.TableWidgetReset` | Battery-Tracker-v3.py:533-534 | the rows are emptied, `prevPercent` and the buckets kept |
| `Tracking.Tracker.AllReset` | Battery-Tracker-v3.py:536-540 | all three buckets are zero and the rows empty, `prevPercent` and `startTime` kept |
| `Tracking.Tracker.SwitchBatteryCare` | Battery-Tracker-v3.py:462-468 | after "On"/"Off" the flag the next `updateStatus` reads is the chosen value: the persisted option, written through, from 3.0 on; the in-memory flag in 1.0 and 2.0 (1.0 lines 251-255, 2.0 lines 253-261) |
| `Tracking.Tracker.Tick` | Battery-Tracker-v3.py:242-245 | one round of status, times and history in `__init__`'s order: the alert, the accounting tick and the recording of a row that carries the label just computed; the in-memory battery-care flag is kept and the settings end reloaded, so rounds chain |

## Left out

- Qt presentation: labels, the table widget (the model keeps its rows as a sequence), menus, shortcuts, the tray icon, style sheets, the About text, the manual window and the settings window (`applySettings`, `batteryCareCheckBoxStatus`).
- The `str(timedelta).split(".")` texts of the time labels: display only.
- `QTimer.singleShot` rescheduling. Each callback is one method call. The 1, 2 and 10 second periods and how the three timers interleave are not modelled; `Tracker.Tick` runs one round in the constructor's order.
- psutil: the readings are parameters. `updateTimes` reads the sensor twice, once for the label and once for the bucket; the model takes one sample for both. A machine without a battery makes `psutil.sensors_battery()` return None and the Python callbacks fail; that case is not modelled.
- `secsleft`'s special values (psutil's "unlimited" and "unknown" markers) get no special meaning. They are formatted like any other integer, as the code does.
- Sound playback through pygame and `trayIcon.showMessage`: the alert names the request instead. Nothing stops playback from failing.
- Screen brightness through wmi, the registry write of `startAtStartup` through `QSettings`, `elevate`, and the `pygetwindow` single-instance check of 1.0 and 2.0 (`checkRunningWindow`): they call out of the program and hold no bookkeeping.
- sqlite and json I/O: a record is an object holding an optional map. A corrupt json file, a json value that is not a boolean, an sqlite NULL column and I/O errors are not modelled. The code handles only a missing file or row.
- Settings.SettingsStatus.Load: an sqlite row is read as five columns at once. The model reads both backends key by key with a default for a missing key. The two agree on every row the program writes, because a write always holds all five keys.
- Settings.SettingsStatus.Set: the five named setters are one method keyed by the option, and `Get` likewise stands for the five getters.
- Release 3.1 has no program-status guard. Its `close_window` and `closeEvent` only hide or close the window, so nothing of them is modelled.
- The time units of `datetime`: spans are integer counts of one clock unit. Microsecond truncation plays no part in the bookkeeping.
