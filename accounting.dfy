/**
 * Time-bucket accounting of `updateTimes` and the menu resets.
 *
 * Durations are signed integer counts of clock units: `datetime.timedelta`
 * is signed and the program never clamps a negative difference of two
 * `datetime.now()` readings, so neither does the model.
 */
module Accounting {

  /** `totalInUseTime`, `totalBatteryTime` and `totalPluggedInTime`. */
  datatype Totals = Totals(inUse: int, onBattery: int, pluggedIn: int)

  const Zero := Totals(0, 0, 0)

  /** One clock reading with the charger state sampled at the same tick. */
  datatype Sample = Sample(now: int, plugged: bool)

  /** How far the total in use is ahead of the two buckets together. */
  function Drift(t: Totals): int {
    t.inUse - (t.onBattery + t.pluggedIn)
  }

  /** The bucket the charger state selects. */
  function Active(t: Totals, plugged: bool): int {
    if plugged then t.pluggedIn else t.onBattery
  }

  /** The other bucket. */
  function Inactive(t: Totals, plugged: bool): int {
    if plugged then t.onBattery else t.pluggedIn
  }

  /**
   * One `updateTimes` tick: the elapsed span goes to the total in use and to
   * the bucket of the sampled charger state. With the reset option on
   * (3.0 and 3.1) the other bucket is zeroed: the guard meant to skip an
   * already-zero bucket compares the text of an enum with "0:00:00", which
   * is never equal, so it zeroes on every tick.
   */
  function Tick(t: Totals, elapsed: int, plugged: bool, resetInactive: bool): (r: Totals)
    ensures r.inUse == t.inUse + elapsed
    ensures Active(r, plugged) == Active(t, plugged) + elapsed
    ensures Inactive(r, plugged) == if resetInactive then 0 else Inactive(t, plugged)
  {
    if plugged then
      Totals(t.inUse + elapsed, if resetInactive then 0 else t.onBattery, t.pluggedIn + elapsed)
    else
      Totals(t.inUse + elapsed, t.onBattery + elapsed, if resetInactive then 0 else t.pluggedIn)
  }

  /** `totalTimeReset`. */
  function ResetInUse(t: Totals): (r: Totals)
    ensures r.inUse == 0 && r.onBattery == t.onBattery && r.pluggedIn == t.pluggedIn
  {
    t.(inUse := 0)
  }

  /** `totalBatteryTimeReset`. */
  function ResetBattery(t: Totals): (r: Totals)
    ensures r.onBattery == 0 && r.inUse == t.inUse && r.pluggedIn == t.pluggedIn
  {
    t.(onBattery := 0)
  }

  /** `totalPluggedInTimeReset`. */
  function ResetPluggedIn(t: Totals): (r: Totals)
    ensures r.pluggedIn == 0 && r.inUse == t.inUse && r.onBattery == t.onBattery
  {
    t.(pluggedIn := 0)
  }

  /** The three time resets of `allReset`, in its order. */
  function ResetAll(t: Totals): (r: Totals)
    ensures r == Zero
  {
    ResetPluggedIn(ResetBattery(ResetInUse(t)))
  }

  /**
   * A run of ticks from `start`: each tick's elapsed span is its clock
   * reading minus the previous one (`startTime`). Gives the totals and the
   * last `startTime`.
   */
  function Run(t: Totals, start: int, samples: seq<Sample>, resetInactive: bool): (r: (Totals, int))
    ensures samples == [] ==> r == (t, start)
    ensures samples != [] ==> r.1 == samples[|samples| - 1].now
    decreases |samples|
  {
    if samples == [] then (t, start)
    else
      var s := samples[0];
      Run(Tick(t, s.now - start, s.plugged, resetInactive), s.now, samples[1..], resetInactive)
  }

  /** Without the reset option a tick keeps the drift: it adds the same span on both sides. */
  lemma TickKeepsDrift(t: Totals, elapsed: int, plugged: bool)
    ensures Drift(Tick(t, elapsed, plugged, false)) == Drift(t)
  {
  }

  /** With the reset option on, a tick leaves the inactive bucket at zero. */
  lemma TickWithResetZeroesInactive(t: Totals, elapsed: int, plugged: bool)
    ensures plugged ==> Tick(t, elapsed, plugged, true).onBattery == 0
    ensures !plugged ==> Tick(t, elapsed, plugged, true).pluggedIn == 0
  {
  }

  /** A non-negative span never lowers a bucket, except the one the option zeroes. */
  lemma TickMonotone(t: Totals, elapsed: int, plugged: bool, resetInactive: bool)
    requires elapsed >= 0
    ensures var r := Tick(t, elapsed, plugged, resetInactive);
            r.inUse >= t.inUse && Active(r, plugged) >= Active(t, plugged) &&
            (!resetInactive ==> Inactive(r, plugged) == Inactive(t, plugged))
  {
  }

  /**
   * The spans telescope: after a run, the total in use has grown by exactly
   * the last clock reading minus the first `startTime`. This holds with or
   * without the reset option.
   */
  lemma {:induction false} RunTelescopes(t: Totals, start: int, samples: seq<Sample>, resetInactive: bool)
    requires samples != []
    ensures Run(t, start, samples, resetInactive).0.inUse == t.inUse + (samples[|samples| - 1].now - start)
    decreases |samples|
  {
    var s := samples[0];
    if |samples| > 1 {
      RunTelescopes(Tick(t, s.now - start, s.plugged, resetInactive), s.now, samples[1..], resetInactive);
    }
  }

  /**
   * Without the reset option the drift is kept over any run, so from zero
   * the total in use equals battery time plus plugged-in time after every
   * sequence of ticks.
   */
  lemma {:induction false} RunKeepsDrift(t: Totals, start: int, samples: seq<Sample>)
    ensures Drift(Run(t, start, samples, false).0) == Drift(t)
    decreases |samples|
  {
    if samples != [] {
      var s := samples[0];
      TickKeepsDrift(t, s.now - start, s.plugged);
      RunKeepsDrift(Tick(t, s.now - start, s.plugged, false), s.now, samples[1..]);
    }
  }

  /**
   * `allReset` restarts the accounting: afterwards a run without the reset
   * option keeps the total equal to the sum of the buckets, and the total is
   * the time since the reset tick's `startTime`.
   */
  lemma AllResetRestarts(t: Totals, start: int, samples: seq<Sample>)
    requires samples != []
    ensures var r := Run(ResetAll(t), start, samples, false).0;
            r.inUse == r.onBattery + r.pluggedIn &&
            r.inUse == samples[|samples| - 1].now - start
  {
    RunKeepsDrift(Zero, start, samples);
    RunTelescopes(Zero, start, samples, false);
  }

  /**
   * A single-bucket reset is where the balance is lost: zeroing a bucket
   * raises the drift by that bucket's time, zeroing the total lowers it by
   * the old total.
   */
  lemma SingleResetsShiftDrift(t: Totals)
    ensures Drift(ResetBattery(t)) == Drift(t) + t.onBattery
    ensures Drift(ResetPluggedIn(t)) == Drift(t) + t.pluggedIn
    ensures Drift(ResetInUse(t)) == Drift(t) - t.inUse
  {
  }

  /**
   * With the reset option on (its default) the balance does not hold even
   * without any menu reset: 5 units plugged in and then 3 on battery leave
   * a total of 8 with 3 on battery and the plugged-in bucket zeroed.
   */
  lemma ResetOptionBreaksBalance()
    ensures Run(Zero, 0, [Sample(5, true), Sample(8, false)], true) == (Totals(8, 3, 0), 8)
  {
  }
}
