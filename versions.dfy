/**
 * The four releases of Battery Tracker carry the same bookkeeping engine with
 * small differences. Each difference is one function of the release here, so
 * the rest of the model is written once.
 */
module Versions {

  /** Battery-Tracker.py (1.0), -v2.py (2.0), -v3.py (3.0) and -v3.1.py (3.1). */
  datatype Version = V1 | V2 | V3 | V31

  /** Below this percentage (strictly) battery care asks for the charger. */
  const LowThreshold: int := 21

  /** Above this percentage (strictly) battery care asks to unplug: 90, lowered to 80 in 3.1. */
  function HighThreshold(v: Version): int {
    if v == V31 then 80 else 90
  }

  /** From 2.0 on, the threshold check also looks at whether the charger is connected. */
  predicate ChecksPlugged(v: Version) {
    v != V1
  }

  /** From 2.0 on, the engine keeps a remaining-time label and logs it as a fourth column. */
  predicate TracksRemaining(v: Version) {
    v != V1
  }

  /**
   * From 3.0 on, battery care, its notifications and the bucket-reset option
   * live in a persisted settings store instead of an in-memory flag.
   */
  predicate HasSettingsStore(v: Version) {
    v == V3 || v == V31
  }
}
