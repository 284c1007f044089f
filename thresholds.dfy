/**
 * Battery care: `updateStatus` checks the battery level against two
 * thresholds and asks the user to connect or disconnect the charger.
 *
 * The check is level-triggered: it looks only at the current sample, so it
 * fires again on every call while the condition holds. No state is kept
 * between calls.
 */
module Thresholds {
  import opened Wrappers
  import opened Versions

  /** The two requests: "Plugg" (connect the charger) and "UnPlugg" (disconnect it). */
  datatype Event = Plugg | UnPlugg

  /** What one `updateStatus` call produces: the sound played and the tray message shown. */
  datatype Alert = Alert(sound: Option<Event>, message: Option<Event>)

  const Quiet := Alert(None, None)

  /**
   * The threshold test of `updateStatus`. A low battery is tested first, so
   * at most one request results. From 2.0 on, a request is made only in the
   * plugged state it asks the user to change.
   */
  function Decide(v: Version, percent: int, plugged: bool): (r: Option<Event>)
    ensures r == Some(Plugg) ==> percent < LowThreshold
    ensures r == Some(UnPlugg) ==> percent > HighThreshold(v)
    ensures LowThreshold <= percent <= HighThreshold(v) ==> r == None
  {
    if percent < LowThreshold && (!ChecksPlugged(v) || !plugged) then Some(Plugg)
    else if percent > HighThreshold(v) && (!ChecksPlugged(v) || plugged) then Some(UnPlugg)
    else None
  }

  /**
   * One `updateStatus` call. Nothing happens unless battery care is on. A
   * request always plays its sound; from 3.0 on, `showNotification` shows
   * the tray message only when `batteryCareNotif` is set, while earlier
   * releases always show it.
   */
  function Evaluate(v: Version, care: bool, notif: bool, percent: int, plugged: bool): (a: Alert)
    ensures !care ==> a == Quiet
    ensures care ==> a.sound == Decide(v, percent, plugged)
    ensures a.message.Some? ==> a.message == a.sound
    ensures a.message.Some? <==> a.sound.Some? && (!HasSettingsStore(v) || notif)
  {
    if !care then Quiet
    else
      var e := Decide(v, percent, plugged);
      Alert(e, if HasSettingsStore(v) && !notif then None else e)
  }

  /** The alerts of a run of `updateStatus` calls, one per (percent, plugged) sample. */
  function EvaluateAll(v: Version, care: bool, notif: bool, samples: seq<(int, bool)>): (r: seq<Alert>)
    ensures |r| == |samples|
    ensures forall i :: 0 <= i < |samples| ==> r[i] == Evaluate(v, care, notif, samples[i].0, samples[i].1)
  {
    if samples == [] then []
    else [Evaluate(v, care, notif, samples[0].0, samples[0].1)] + EvaluateAll(v, care, notif, samples[1..])
  }

  /** The full truth table of the decision, both directions. */
  lemma DecideExactly(v: Version, percent: int, plugged: bool)
    ensures Decide(v, percent, plugged) == Some(Plugg) <==>
            percent < LowThreshold && (v == V1 || !plugged)
    ensures Decide(v, percent, plugged) == Some(UnPlugg) <==>
            percent > HighThreshold(v) && (v == V1 || plugged) &&
            !(percent < LowThreshold && (v == V1 || !plugged))
  {
  }

  /**
   * From 2.0 on a request is always actionable: it asks to plug in only
   * while unplugged and to unplug only while plugged, and doing what it asks
   * silences it.
   */
  lemma FollowingAdviceSilences(v: Version, percent: int, plugged: bool)
    requires v != V1
    ensures Decide(v, percent, plugged) == Some(Plugg) ==> !plugged
    ensures Decide(v, percent, plugged) == Some(UnPlugg) ==> plugged
    ensures Decide(v, percent, plugged).Some? ==> Decide(v, percent, !plugged) == None
  {
  }

  /**
   * Release 1.0 ignores the charger: it asks to plug in a charger that is
   * already connected, and to unplug one that is not.
   */
  lemma FirstReleaseIgnoresCharger()
    ensures Decide(V1, 15, true) == Some(Plugg)
    ensures Decide(V1, 95, false) == Some(UnPlugg)
    ensures Decide(V2, 15, true) == None && Decide(V2, 95, false) == None
  {
  }

  /** Release 3.1 lowers the high threshold: at 85% while charging only 3.1 asks to unplug. */
  lemma HighThresholdLowered()
    ensures Decide(V31, 85, true) == Some(UnPlugg)
    ensures Decide(V3, 85, true) == None
    ensures Decide(V31, 80, true) == None
  {
  }

  /**
   * The check is level-triggered: on battery, 25% then 20% then 15% then
   * 25% requests the charger twice, at 20% and again at 15%, not only on
   * entering the low range.
   */
  lemma LowBatteryRefires(v: Version)
    ensures EvaluateAll(v, true, true, [(25, false), (20, false), (15, false), (25, false)]) ==
            [Quiet, Alert(Some(Plugg), Some(Plugg)), Alert(Some(Plugg), Some(Plugg)), Quiet]
  {
  }
}
