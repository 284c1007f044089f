/**
 * The bookkeeping engine under the main window: the `BatteryTracker`
 * widget of releases 1.0 and 2.0 and the `MainWindow` of 3.0 and 3.1, with
 * the widgets left out. Each timer callback is one method here, invoked
 * once; the sensor readings (`percent`, `plugged`, `secsleft`), the
 * `datetime.now()` reading and the "HH:mm" clock text are parameters.
 */
module Tracking {
  import opened Wrappers
  import opened Versions
  import opened TimeFormat
  import opened Thresholds
  import opened Accounting
  import opened History
  import Settings

  class Tracker {
    const version: Version
    /** The window's own `SettingsStatus`, from 3.0 on; null in 1.0 and 2.0. */
    const settings: Settings.SettingsStatus?
    /** The in-memory battery-care flag of 1.0 and 2.0; 3.0 and 3.1 read the persisted option instead. */
    var batteryCare: bool
    var startTime: int
    var totalInUseTime: int
    var totalBatteryTime: int
    var totalPluggedInTime: int
    var prevPercent: Option<int>
    var batteryRemaining: Option<string>
    /** The rows of the battery history table. */
    var rows: seq<Row>

    ghost predicate Valid()
      reads this
    {
      (settings != null <==> HasSettingsStore(version)) &&
      Consistent(Log(rows, prevPercent))
    }

    /** The objects the callbacks may change: this tracker and, from 3.0 on, its settings and their record. */
    ghost function Footprint(): set<object>
      reads this
    {
      {this} + if settings != null then {settings, settings.file} else {}
    }

    /** The three time buckets. */
    function Times(): Totals
      reads this
    {
      Totals(totalInUseTime, totalBatteryTime, totalPluggedInTime)
    }

    /** The history table with `prevPercent`. */
    function Table(): Log
      reads this
    {
      Log(rows, prevPercent)
    }

    /** The options a getter would return now: reloaded from the record from 3.0 on. */
    function Options(): Settings.Config
      reads this, if settings != null then {settings.file} else {}
    {
      if settings != null then Settings.Loaded(settings.file.stored) else Settings.Defaults
    }

    /** Whether battery care is on: the persisted option from 3.0 on, the in-memory flag before. */
    function CareOn(): bool
      reads this, if settings != null then {settings.file} else {}
    {
      if settings != null then Options().batteryCare else batteryCare
    }

    /** The reset option of `updateTimes`, which only 3.0 and 3.1 have. */
    function ResetOptionOn(): bool
      reads this, if settings != null then {settings.file} else {}
    {
      settings != null && Options().resetTimes
    }

    /** The settings record after one or more getters have reloaded it. */
    twostate predicate SettingsReloaded()
      reads this, if settings != null then {settings, settings.file} else {}
    {
      settings != null ==>
        settings.Current() == Settings.Loaded(old(settings.file.stored)) &&
        settings.file.stored == Settings.AfterLoad(old(settings.file.stored))
    }

    /**
     * `__init__`: zero buckets, an empty table, no `prevPercent` and no
     * remaining label yet, the clock started at `now`; in 1.0 and 2.0 the
     * in-memory battery-care flag starts on. From 3.0 on battery care is the
     * persisted option, which the constructor leaves alone.
     */
    constructor (version: Version, settings: Settings.SettingsStatus?, now: int)
      requires settings != null <==> HasSettingsStore(version)
      ensures Valid()
      ensures this.version == version && this.settings == settings
      ensures Times() == Zero && Table() == Fresh
      ensures startTime == now && batteryRemaining == None && batteryCare
      ensures settings == null ==> CareOn()
    {
      this.version := version;
      this.settings := settings;
      batteryCare := true;
      startTime := now;
      totalInUseTime, totalBatteryTime, totalPluggedInTime := 0, 0, 0;
      prevPercent := None;
      batteryRemaining := None;
      rows := [];
    }

    /**
     * `updateStatus`: when battery care is on, check the thresholds; a
     * request plays its sound and, gated by `batteryCareNotif` from 3.0 on,
     * shows its tray message. Only the settings' reload changes state.
     */
    method UpdateStatus(percent: int, plugged: bool) returns (alert: Alert)
      requires Valid()
      modifies Footprint()
      ensures Valid() && unchanged(this)
      ensures alert == Evaluate(version, old(CareOn()), old(Options()).batteryCareNotif, percent, plugged)
      ensures !old(CareOn()) ==> alert == Quiet
      ensures SettingsReloaded()
    {
      var care;
      if settings != null {
        care := settings.Get(Settings.BatteryCare);
      } else {
        care := batteryCare;
      }
      alert := Quiet;
      if care {
        var e := Decide(version, percent, plugged);
        if e.Some? {
          var show := true;
          if settings != null {
            show := settings.Get(Settings.BatteryCareNotif);
            Settings.LoadIdempotent(old(settings.file.stored));
          }
          alert := Alert(e, if show then e else None);
        }
      }
    }

    /**
     * `updateTimes`: refresh the remaining-time label (from 2.0 on), add the
     * span since `startTime` to the total and to the bucket of the charger
     * state, apply the reset option (3.0 and 3.1), and restart the clock.
     */
    method UpdateTimes(percent: int, plugged: bool, secsleft: int, now: int)
      requires Valid()
      modifies Footprint()
      ensures Valid()
      ensures Times() == Accounting.Tick(old(Times()), now - old(startTime), plugged, old(ResetOptionOn()))
      ensures startTime == now
      ensures batteryRemaining ==
                if TracksRemaining(version) then Some(RemainingLabel(plugged, percent, secsleft))
                else old(batteryRemaining)
      ensures Table() == old(Table()) && batteryCare == old(batteryCare)
      ensures SettingsReloaded()
    {
      if TracksRemaining(version) {
        batteryRemaining := Some(RemainingLabel(plugged, percent, secsleft));
      }
      var elapsed := now - startTime;
      totalInUseTime := totalInUseTime + elapsed;
      // The guard in front of each reset compares the text of the label's
      // format enum with "0:00:00"; they are never equal, so only the
      // option decides.
      if plugged {
        totalPluggedInTime := totalPluggedInTime + elapsed;
        if settings != null {
          var resetOn := settings.Get(Settings.ResetTimes);
          if resetOn {
            TotalBatteryTimeReset();
          }
        }
      } else {
        totalBatteryTime := totalBatteryTime + elapsed;
        if settings != null {
          var resetOn := settings.Get(Settings.ResetTimes);
          if resetOn {
            TotalPluggedInTimeReset();
          }
        }
      }
      startTime := now;
    }

    /**
     * `updateBattery`: append a row for this sample exactly when its
     * percentage differs from `prevPercent`, which then becomes it.
     */
    method UpdateBattery(percent: int, plugged: bool, clock: string)
      requires Valid()
      modifies this
      ensures Valid()
      ensures Table() == Record(old(Table()), MakeRow(version, clock, percent, plugged, batteryRemaining))
      ensures Times() == old(Times()) && startTime == old(startTime)
      ensures batteryRemaining == old(batteryRemaining) && batteryCare == old(batteryCare)
    {
      RecordKeepsConsistent(Table(), MakeRow(version, clock, percent, plugged, batteryRemaining));
      if Some(percent) != prevPercent {
        rows := rows + [MakeRow(version, clock, percent, plugged, batteryRemaining)];
        prevPercent := Some(percent);
      }
    }

    /** `totalTimeReset`. */
    method TotalTimeReset()
      modifies this
      ensures Times() == ResetInUse(old(Times()))
      ensures Table() == old(Table()) && startTime == old(startTime)
      ensures batteryRemaining == old(batteryRemaining) && batteryCare == old(batteryCare)
    {
      totalInUseTime := 0;
    }

    /** `totalBatteryTimeReset`. */
    method TotalBatteryTimeReset()
      modifies this
      ensures Times() == ResetBattery(old(Times()))
      ensures Table() == old(Table()) && startTime == old(startTime)
      ensures batteryRemaining == old(batteryRemaining) && batteryCare == old(batteryCare)
    {
      totalBatteryTime := 0;
    }

    /** `totalPluggedInTimeReset`. */
    method TotalPluggedInTimeReset()
      modifies this
      ensures Times() == ResetPluggedIn(old(Times()))
      ensures Table() == old(Table()) && startTime == old(startTime)
      ensures batteryRemaining == old(batteryRemaining) && batteryCare == old(batteryCare)
    {
      totalPluggedInTime := 0;
    }

    /** `tableWidgetReset`: empty the table; `prevPercent` is kept. */
    method TableWidgetReset()
      requires Valid()
      modifies this
      ensures Valid()
      ensures Table() == Clear(old(Table()))
      ensures Times() == old(Times()) && startTime == old(startTime)
      ensures batteryRemaining == old(batteryRemaining) && batteryCare == old(batteryCare)
    {
      rows := [];
    }

    /** `allReset`: the three time resets and the table reset, in that order. */
    method AllReset()
      requires Valid()
      modifies this
      ensures Valid()
      ensures Times() == Zero
      ensures Table() == Clear(old(Table()))
      ensures startTime == old(startTime)
      ensures batteryRemaining == old(batteryRemaining) && batteryCare == old(batteryCare)
    {
      TotalTimeReset();
      TotalBatteryTimeReset();
      TotalPluggedInTimeReset();
      TableWidgetReset();
    }

    /**
     * The tray menu's battery-care "On" and "Off" (`batteryCareOn`,
     * `batteryCareOff`): set the in-memory flag in 1.0 and 2.0; from 3.0 on,
     * set the persisted option and save once more. Either way the next
     * `updateStatus` sees the new value.
     */
    method SwitchBatteryCare(on: bool)
      requires Valid()
      modifies Footprint()
      ensures Valid()
      ensures CareOn() == on
      ensures settings != null ==>
                settings.Current() == Settings.With(old(settings.Current()), Settings.BatteryCare, on) &&
                settings.file.stored == Some(Settings.Encode(settings.Current()))
      ensures settings == null ==> batteryCare == on
      ensures Times() == old(Times()) && Table() == old(Table()) && startTime == old(startTime)
      ensures batteryRemaining == old(batteryRemaining)
    {
      if settings != null {
        settings.Set(Settings.BatteryCare, on);
        settings.Save();
        Settings.DecodeEncode(settings.Current());
      } else {
        batteryCare := on;
      }
    }

    /**
     * One round of the three callbacks in the order `__init__` first runs
     * them: status, times, then the history table, which logs the label
     * `updateTimes` has just set.
     */
    method Tick(percent: int, plugged: bool, secsleft: int, now: int, clock: string) returns (alert: Alert)
      requires Valid()
      modifies Footprint()
      ensures Valid()
      ensures alert == Evaluate(version, old(CareOn()), old(Options()).batteryCareNotif, percent, plugged)
      ensures Times() == Accounting.Tick(old(Times()), now - old(startTime), plugged, old(ResetOptionOn()))
      ensures startTime == now
      ensures batteryRemaining ==
                if TracksRemaining(version) then Some(RemainingLabel(plugged, percent, secsleft))
                else old(batteryRemaining)
      ensures Table() == Record(old(Table()), MakeRow(version, clock, percent, plugged, batteryRemaining))
      ensures batteryCare == old(batteryCare)
      ensures SettingsReloaded()
    {
      alert := UpdateStatus(percent, plugged);
      if settings != null {
        Settings.LoadIdempotent(old(settings.file.stored));
      }
      UpdateTimes(percent, plugged, secsleft, now);
      UpdateBattery(percent, plugged, clock);
    }
  }
}
