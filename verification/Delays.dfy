/** Bounded exponential back-off of the dispatcher, and the fixed intervals around it. */
module Delays {
  import opened Basics

  const LAUNCH_RETRY_WINDOW: Time := 10 * MINUTE
  const REPORT_RETRY_MAX_ATTEMPTS := 24
  const PRE_OUTBOX_MAX_ATTEMPTS := 10
  const STATUS_POLL_INTERVAL: Time := 2 * SECOND
  const EXTERNAL_RECOVERY_WAKE: Time := 15 * MINUTE
  const REPORTER_UNAVAILABLE_DELAY: Time := MINUTE
  const CI_RECONCILE_LEASE: Time := 2 * MINUTE

  /** `base` shifted left by `n`. */
  function Doubled(base: Time, n: nat): (delay: Time)
    requires 0 < base
    ensures base <= delay
  {
    if n == 0 then base else 2 * Doubled(base, n - 1)
  }

  /** Doubles from `base` at most `doublings` times, and never exceeds `cap`. */
  function BackOff(base: Time, doublings: nat, cap: Time, attempt: int): (delay: Time)
    requires 0 < base <= cap
    ensures base <= delay <= cap
  {
    Min(Doubled(base, Min(Max(attempt, 1) - 1, doublings)), cap)
  }

  /**
   The first delay is `base`; each of the next `doublings` is twice the one before, up to `cap`, and then they stay the
   same.
   */
  lemma BackOffDoubles(base: Time, doublings: nat, cap: Time, attempt: int)
    requires 0 < base <= cap
    ensures attempt <= 1 ==> BackOff(base, doublings, cap, attempt) == base
    ensures 1 <= attempt <= doublings ==>
              BackOff(base, doublings, cap, attempt + 1) == Min(2 * BackOff(base, doublings, cap, attempt), cap)
    ensures attempt > doublings ==> BackOff(base, doublings, cap, attempt + 1) == BackOff(base, doublings, cap, attempt)
  {
    if 1 <= attempt <= doublings {
      assert Doubled(base, attempt) == 2 * Doubled(base, attempt - 1);
    }
  }

  function LaunchRetryDelay(attempt: int): Time { BackOff(2 * SECOND, 4, 20 * SECOND, attempt) }

  function ReportRetryDelay(attempt: int): Time { BackOff(30 * SECOND, 7, 60 * MINUTE, attempt) }

  function PreOutboxRetryDelay(attempt: int): Time { BackOff(STATUS_POLL_INTERVAL, 5, MINUTE, attempt) }
}
