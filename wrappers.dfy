/** Optional values: a missing database row, a null timestamp, an unmapped key. */
module Wrappers {

  datatype Option<+T> = None | Some(value: T)
}

/** Time is measured in integer milliseconds since an arbitrary epoch. */
module Time {

  /** One day, written as the dashboard writes it: 1000 * 60 * 60 * 24 milliseconds. */
  const MsPerDay: int := 1000 * 60 * 60 * 24

  /** A date may lie at most 100 000 000 days either side of the epoch. */
  const MaxTimeMs: int := 100_000_000 * MsPerDay

  /** A time a date can hold; outside this range a date is invalid and cannot be formatted. */
  predicate IsValidTime(t: int)
  {
    -MaxTimeMs <= t <= MaxTimeMs
  }
}
