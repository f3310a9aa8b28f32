/** FeedCachePolicy: the freshness rule of the feed cache. */
module CachePolicy {
  import opened FeedDomain

  const SecondsPerDay: int := 86400
  /** `maxCacheAgeInDays` */
  const MaxCacheAgeInDays: int := 7
  const MaxCacheAge: int := MaxCacheAgeInDays * SecondsPerDay

  /**
   * `validate(timestamp, against: date)`: a cache is fresh when it was
   * written strictly after `date` minus seven days, that is, when its age at
   * `date` is below seven days of 86400 seconds.
   */
  function Validate(timestamp: Timestamp, date: Timestamp): (isFresh: bool)
    ensures isFresh <==> date - timestamp < 604800
  {
    timestamp > date - MaxCacheAge
  }

  /** The boundary: exactly seven days old is expired, one second less is fresh, one more is expired. */
  lemma Boundary(date: Timestamp)
    ensures !Validate(date - MaxCacheAge, date)
    ensures Validate(date - MaxCacheAge + 1, date)
    ensures !Validate(date - MaxCacheAge - 1, date)
  {
  }

  /** A cache fresh against a date stays fresh against any earlier date, and a newer cache is fresh too. */
  lemma Monotonic(timestamp: Timestamp, date: Timestamp, timestamp': Timestamp, date': Timestamp)
    requires Validate(timestamp, date)
    requires timestamp <= timestamp' && date' <= date
    ensures Validate(timestamp', date')
  {
  }
}
