/**
 * The staleness rule of the query cache: a cached Query is refreshed once
 * more than the configured number of minutes has passed since it was last
 * updated.
 */
module Freshness {
  import opened Schema

  const MillisPerMinute: nat := 60000

  /**
   * The source divides the elapsed milliseconds by 60000 and compares the
   * quotient with the timeout in minutes; multiplying out gives the same
   * strict comparison on integers.
   */
  function IsStale(updated: Timestamp, now: Timestamp, timeoutMinutes: nat): (stale: bool)
    ensures stale <==> (now - updated) as real / MillisPerMinute as real > timeoutMinutes as real
  {
    now - updated > timeoutMinutes * MillisPerMinute
  }

  /** Exactly the timeout is still fresh; one millisecond more is stale. */
  lemma StalenessBoundary(updated: Timestamp, timeoutMinutes: nat)
    ensures !IsStale(updated, updated + timeoutMinutes * MillisPerMinute, timeoutMinutes)
    ensures IsStale(updated, updated + timeoutMinutes * MillisPerMinute + 1, timeoutMinutes)
  {
  }

  /** Once stale, a Query stays stale as the clock moves on. */
  lemma StalenessIsMonotone(updated: Timestamp, now: Timestamp, later: Timestamp, timeoutMinutes: nat)
    requires now <= later
    requires IsStale(updated, now, timeoutMinutes)
    ensures IsStale(updated, later, timeoutMinutes)
  {
  }
}
