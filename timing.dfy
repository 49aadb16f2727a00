/**
 * The refresh cadence: the first periodic refresh lands one minute past the
 * next ten-minute mark of the hour, then one every ten minutes.
 */
module Timing {

  const MinuteMs: nat := 60 * 1000

  /** The period of the refresh interval: `10 * 60 * 1000`. */
  const IntervalMs: nat := 10 * 60 * 1000

  /**
   * `10 - (minute % 10) + 1`, minutes until the first refresh when the
   * current minute of the hour is `minute`.
   */
  function FirstTickMinutes(minute: nat): (r: nat)
    ensures 2 <= r <= 11
    ensures (minute + r) % 10 == 1
  {
    10 - minute % 10 + 1
  }

  /** `minutesTillFirstReview * 60 * 1000` */
  function FirstTickMs(minute: nat): (r: nat)
    ensures 2 * MinuteMs <= r <= 11 * MinuteMs
    ensures r % MinuteMs == 0
    ensures r / MinuteMs == FirstTickMinutes(minute) && (minute + r / MinuteMs) % 10 == 1
  {
    FirstTickMinutes(minute) * MinuteMs
  }

  /**
   * The first refresh is the earliest minute, at least two minutes away,
   * that is one past a ten-minute mark: no earlier candidate qualifies.
   */
  lemma FirstTickIsEarliest(minute: nat, k: nat)
    requires 2 <= k < FirstTickMinutes(minute)
    ensures (minute + k) % 10 != 1
  {
  }

  /**
   * The first refresh followed by `k + 1` intervals lands `10 * (k + 1)`
   * minutes after the first tick, so still one minute past a ten-minute mark.
   */
  lemma CadenceArithmetic(minute: nat, k: nat)
    ensures FirstTickMs(minute) + IntervalMs + k * IntervalMs == (FirstTickMinutes(minute) + 10 * (k + 1)) * MinuteMs
    ensures (minute + FirstTickMinutes(minute) + 10 * (k + 1)) % 10 == 1
  {
  }
}
