/** Instants are integer milliseconds; this module holds the day-count arithmetic the pages share. */
module Dates {
  import JsMath

  /** One day, `1000 * 60 * 60 * 24` milliseconds. */
  const DayMs: int := 1000 * 60 * 60 * 24

  /**
   * `Math.ceil((end - now) / DayMs)`: the number of started days from now
   * until end (zero or negative once end has passed). The card, the detail
   * header and the home page's "ending" tab all compute it this way.
   */
  function DaysLeft(end: int, now: int): (d: int)
    ensures (d - 1) * DayMs < end - now <= d * DayMs
  {
    JsMath.CeilDiv(end - now, DayMs)
  }

  /** At least one day is left exactly while end is still in the future. */
  lemma DaysLeftPositive(end: int, now: int)
    ensures DaysLeft(end, now) > 0 <==> now < end
  {
  }

  /** At most k days are left exactly when end is at most k whole days away. */
  lemma DaysLeftAtMost(end: int, now: int, k: int)
    ensures DaysLeft(end, now) <= k <==> end - now <= k * DayMs
  {
  }
}
