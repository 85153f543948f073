/** The limits a user holds and the summary a rate limiter answers with. */
module Quotas {
  import opened Wrappers

  datatype QuotaLimits = QuotaLimits(perSecond: int, perMinute: int, perHour: int, perDay: int)

  /** `reset` is an instant in milliseconds; None stands for null. */
  datatype Quota = Quota(limit: int, remaining: int, reset: Option<int>)

  datatype QuotaSummary = QuotaSummary(perSecond: Quota, perMinute: Quota, perHour: Quota, perDay: Quota)

  datatype TooManyRequests = TooManyRequests

  // ----- The four windows -----

  datatype Unit = Second | Minute | Hour | Day

  const UNITS: seq<Unit> := [Second, Minute, Hour, Day]

  function Index(unit: Unit): (i: nat)
    ensures i < 4 && UNITS[i] == unit
  {
    match unit case Second => 0 case Minute => 1 case Hour => 2 case Day => 3
  }

  function Width(unit: Unit): nat {
    match unit case Second => 1000 case Minute => 60000 case Hour => 3600000 case Day => 86400000
  }

  // The expiry a window's key is given: 2, 61, 3601 and 86401 seconds.
  function Ttl(unit: Unit): nat {
    match unit case Second => 2000 case Minute => 61000 case Hour => 3601000 case Day => 86401000
  }

  function LimitOf(limits: QuotaLimits, unit: Unit): int {
    match unit
    case Second => limits.perSecond
    case Minute => limits.perMinute
    case Hour => limits.perHour
    case Day => limits.perDay
  }
}
