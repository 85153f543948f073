/**
 When a scheduled job first runs, when it runs again, and how often it is retried. Days have 24 hours: there is no
 daylight saving. An instant is in milliseconds since some Sunday at midnight, local time; the clock is read once.
 */
module JobsScheduling {
  import opened Wrappers

  const MINUTE := 60000
  const HOUR := 3600000
  const DAY := 86400000

  datatype Weekday = Sunday | Monday | Tuesday | Wednesday | Thursday | Friday | Saturday

  datatype Frequency = EveryMinute | EveryHour | EveryDay | EveryWeek | Custom(hours: nat, minutes: nat, seconds: nat)

  datatype TimeOfDay = TimeOfDay(hours: int, minutes: int)

  datatype Rhythm = Rhythm(firstExecutionTime: Option<TimeOfDay>, firstExecutionDay: Option<Weekday>, frequency: Frequency)

  function IndexOf(day: Weekday): (i: nat)
    ensures i < 7
  {
    match day
    case Sunday => 0
    case Monday => 1
    case Tuesday => 2
    case Wednesday => 3
    case Thursday => 4
    case Friday => 5
    case Saturday => 6
  }

  const WEEK: seq<Weekday> := [Sunday, Monday, Tuesday, Wednesday, Thursday, Friday, Saturday]

  lemma {:induction false} WeekInOrder(day: Weekday)
    ensures WEEK[IndexOf(day)] == day
  {
  }

  // Date.getDay
  function DayIndex(instant: nat): (i: nat)
    ensures i < 7
  {
    instant / DAY % 7
  }

  function ParseFirstExecutionDay(rhythm: Rhythm, now: nat): Option<nat> {
    if rhythm.firstExecutionDay.None? then None
    else
      var diff := IndexOf(rhythm.firstExecutionDay.value) - DayIndex(now);
      if diff > 0 then Some(diff) else if diff < 0 then Some(diff + 7) else Some(0)
  }

  function Timeout(rhythm: Rhythm, now: nat): int {
    var executionTime, daysToExecute := rhythm.firstExecutionTime, ParseFirstExecutionDay(rhythm, now);
    // 0 days count as none
    if executionTime.None? && (daysToExecute.None? || daysToExecute.value == 0) then 0
    else
      var days := if daysToExecute.Some? then daysToExecute.value else 0;
      var slot := if executionTime.Some? then executionTime.value.hours * HOUR + executionTime.value.minutes * MINUTE else 0;
      var first := (now / DAY + days) * DAY + slot;
      if first - now < 0 then first + 24 * HOUR - now else first - now
  }

  function Interval(frequency: Frequency): nat {
    match frequency
    case EveryMinute => ToMilliseconds(0, 1, 0)
    case EveryHour => ToMilliseconds(1, 0, 0)
    case EveryDay => ToMilliseconds(24, 0, 0)
    case EveryWeek => ToMilliseconds(24 * 7, 0, 0)
    case Custom(hours, minutes, seconds) => ToMilliseconds(hours, minutes, seconds)
  }

  function ToMilliseconds(hours: nat, minutes: nat, seconds: nat): nat {
    (hours * 60 * 60 + minutes * 60 + seconds) * 1000
  }

  predicate ValidTime(time: TimeOfDay) {
    0 <= time.hours < 24 && 0 <= time.minutes < 60
  }

  // The slot a rhythm asks for, in milliseconds of the day: midnight when it names only a day.
  function Slot(rhythm: Rhythm): int {
    if rhythm.firstExecutionTime.Some?
    then rhythm.firstExecutionTime.value.hours * HOUR + rhythm.firstExecutionTime.value.minutes * MINUTE else 0
  }

  ghost predicate Valid(rhythm: Rhythm) {
    rhythm.firstExecutionTime.Some? ==> ValidTime(rhythm.firstExecutionTime.value)
  }

  // The day asked for is today, and its slot is over.
  predicate TooLateToday(rhythm: Rhythm, now: nat) {
    && rhythm.firstExecutionTime.Some? && rhythm.firstExecutionDay.Some?
    && IndexOf(rhythm.firstExecutionDay.value) == DayIndex(now)
    && Slot(rhythm) < now % DAY
  }

  // Whole days from the start of today to the first run.
  function DaysAhead(rhythm: Rhythm, now: nat): nat {
    var days := ParseFirstExecutionDay(rhythm, now);
    if days.Some? && days.value != 0 then days.value else if Slot(rhythm) < now % DAY then 1 else 0
  }

  lemma {:induction false} DayParts(days: nat, slot: nat)
    requires slot < DAY
    ensures (days * DAY + slot) / DAY == days && (days * DAY + slot) % DAY == slot
  {
  }

  lemma {:induction false} FirstRunAt(rhythm: Rhythm, now: nat)
    requires Valid(rhythm)
    requires rhythm.firstExecutionTime.Some? ||
             (ParseFirstExecutionDay(rhythm, now).Some? && ParseFirstExecutionDay(rhythm, now).value != 0)
    ensures now + Timeout(rhythm, now) == (now / DAY + DaysAhead(rhythm, now)) * DAY + Slot(rhythm)
    ensures 0 <= Slot(rhythm) < DAY && DaysAhead(rhythm, now) <= 6
    ensures DaysAhead(rhythm, now) == 0 ==> now % DAY <= Slot(rhythm)
  {
    assert now == now / DAY * DAY + now % DAY;
  }

  /** The first run is never in the past and always less than seven days away. */
  lemma {:induction false} WithinAWeek(rhythm: Rhythm, now: nat)
    requires Valid(rhythm)
    ensures 0 <= Timeout(rhythm, now) < 7 * DAY
  {
    if rhythm.firstExecutionTime.Some? ||
       (ParseFirstExecutionDay(rhythm, now).Some? && ParseFirstExecutionDay(rhythm, now).value != 0) {
      FirstRunAt(rhythm, now);
      assert now == now / DAY * DAY + now % DAY;
    }
  }

  /** When a time is given, the first run is at that time of day. */
  lemma {:induction false} AtTheTime(rhythm: Rhythm, now: nat)
    requires Valid(rhythm) && rhythm.firstExecutionTime.Some?
    ensures var time, first := rhythm.firstExecutionTime.value, now + Timeout(rhythm, now);
            0 <= first && first % 86400000 == Slot(rhythm) == time.hours * 3600000 + time.minutes * 60000
  {
    FirstRunAt(rhythm, now);
    DayParts(now / DAY + DaysAhead(rhythm, now), Slot(rhythm));
  }

  /** Without a time, and without a day or on the very day, the first run comes at once. */
  lemma {:induction false} AtOnce(rhythm: Rhythm, now: nat)
    requires rhythm.firstExecutionTime.None?
    requires rhythm.firstExecutionDay.Some? ==> IndexOf(rhythm.firstExecutionDay.value) == DayIndex(now)
    ensures Timeout(rhythm, now) == 0
  {
  }

  /**
   When a day is given, the first run is on that weekday unless it is today and the time is over: then it is at that
   time tomorrow, on the wrong day.
   */
  lemma {:induction false} OnTheDayIff(rhythm: Rhythm, now: nat)
    requires Valid(rhythm) && rhythm.firstExecutionDay.Some?
    ensures 0 <= now + Timeout(rhythm, now)
    ensures var day, first := IndexOf(rhythm.firstExecutionDay.value), now + Timeout(rhythm, now);
            && (DayIndex(first) == day <==> !TooLateToday(rhythm, now))
            && (TooLateToday(rhythm, now) ==> DayIndex(first) == (day + 1) % 7 && first / DAY == now / DAY + 1)
  {
    hide Timeout, Slot, Valid;
    var day, today := IndexOf(rhythm.firstExecutionDay.value), now / DAY;
    DaysOn(today, day);
    if rhythm.firstExecutionTime.Some? || day != today % 7 {
      FirstRunAt(rhythm, now);
      DayParts(today + DaysAhead(rhythm, now), Slot(rhythm));
      assert rhythm.firstExecutionTime.None? ==> !TooLateToday(rhythm, now);
    } else {
      AtOnce(rhythm, now);
    }
  }

  // So many days from today it is that weekday, and never on the day after it.
  lemma {:induction false} DaysOn(today: nat, day: nat)
    requires day < 7
    ensures var diff := day - today % 7;
            && (0 < diff ==> (today + diff) % 7 == day) && (diff < 0 ==> (today + (diff + 7)) % 7 == day)
            && (diff == 0 ==> (today + 1) % 7 == (day + 1) % 7 != day)
  {
  }

  /** On a Monday at ten, "monday" at nine first runs on Tuesday at nine. */
  lemma {:induction false} LateMonday()
    ensures var rhythm, now := Rhythm(Some(TimeOfDay(9, 0)), Some(Monday), EveryWeek), DAY + 10 * HOUR;
            now + Timeout(rhythm, now) == 2 * DAY + 9 * HOUR && DayIndex(2 * DAY + 9 * HOUR) == IndexOf(Tuesday)
  {
    DayParts(1, 10 * HOUR);
    DayParts(2, 9 * HOUR);
  }

  /** With a day but no time, the first run is at midnight of that day, unless it is today. */
  lemma {:induction false} AtMidnight(rhythm: Rhythm, now: nat)
    requires rhythm.firstExecutionTime.None? && rhythm.firstExecutionDay.Some?
    requires IndexOf(rhythm.firstExecutionDay.value) != DayIndex(now)
    ensures var first := now + Timeout(rhythm, now);
            && now < first && first % DAY == 0 && first - now < 7 * DAY
            && DayIndex(first) == IndexOf(rhythm.firstExecutionDay.value)
  {
    WithinAWeek(rhythm, now);
    OnTheDayIff(rhythm, now);
    FirstRunAt(rhythm, now);
    DayParts(now / DAY + DaysAhead(rhythm, now), 0);
  }

  // The k-th run, counted from the first, if the timers keep time.
  function RunAt(rhythm: Rhythm, now: nat, k: nat): int {
    now + Timeout(rhythm, now) + k * Interval(rhythm.frequency)
  }

  /** Runs are a minute, an hour, a day or a week apart, or as far as the custom hours, minutes and seconds say. */
  lemma {:induction false} RunsApart(rhythm: Rhythm, now: nat, k: nat)
    ensures var apart := RunAt(rhythm, now, k + 1) - RunAt(rhythm, now, k);
            && (rhythm.frequency.EveryMinute? ==> apart == 60000)
            && (rhythm.frequency.EveryHour? ==> apart == 3600000)
            && (rhythm.frequency.EveryDay? ==> apart == 86400000)
            && (rhythm.frequency.EveryWeek? ==> apart == 7 * 86400000)
            && (rhythm.frequency.Custom? ==>
                 apart == 3600000 * rhythm.frequency.hours + 60000 * rhythm.frequency.minutes
                          + 1000 * rhythm.frequency.seconds)
    ensures RunAt(rhythm, now, 0) == now + Timeout(rhythm, now)
  {
    hide Timeout;
    var interval := Interval(rhythm.frequency);
    assert (k + 1) * interval == k * interval + interval;
  }

  lemma {:induction false} LaterDays(first: nat, days: nat)
    ensures (first + days * DAY) % DAY == first % DAY && (first + days * DAY) / DAY == first / DAY + days
  {
    DayParts(first / DAY + days, first % DAY);
    assert first + days * DAY == (first / DAY + days) * DAY + first % DAY;
  }

  /** A daily or weekly job runs at the time of its first run every time. */
  lemma {:induction false} KeepsTheTime(rhythm: Rhythm, now: nat, k: nat)
    requires Valid(rhythm) && rhythm.firstExecutionTime.Some?
    requires rhythm.frequency == EveryDay || rhythm.frequency == EveryWeek
    ensures var time, run := rhythm.firstExecutionTime.value, RunAt(rhythm, now, k);
            0 <= run && run % 86400000 == time.hours * 3600000 + time.minutes * 60000
  {
    var n := if rhythm.frequency == EveryDay then k else 7 * k;
    AtTheTime(rhythm, now);
    LaterDays(now + Timeout(rhythm, now), n);
    assert k * Interval(rhythm.frequency) == n * DAY;
  }

  lemma {:induction false} SameWeekday(first: nat, k: nat)
    ensures DayIndex(first + 7 * k * DAY) == DayIndex(first)
  {
    LaterDays(first, 7 * k);
  }

  /** A weekly job runs on the weekday it was given either every time or, registered too late that day, never. */
  lemma {:induction false} KeepsTheDayIff(rhythm: Rhythm, now: nat, k: nat)
    requires Valid(rhythm) && rhythm.firstExecutionDay.Some? && rhythm.frequency == EveryWeek
    ensures 0 <= RunAt(rhythm, now, k)
    ensures DayIndex(RunAt(rhythm, now, k)) == IndexOf(rhythm.firstExecutionDay.value) <==> !TooLateToday(rhythm, now)
  {
    hide Timeout, DayIndex, TooLateToday;
    OnTheDayIff(rhythm, now);
    SameWeekday(now + Timeout(rhythm, now), k);
    assert k * Interval(rhythm.frequency) == 7 * k * DAY;
  }

  // ----- Retries -----

  /**
   One firing of a job whose i-th run succeeds as `succeeds` tells: it runs once, and again until a run succeeds or the
   retries are used up.
   */
  method Runner(retries: Option<int>, succeeds: nat -> bool) returns (runs: nat)
    ensures var retry := if retries.Some? then retries.value else 2;
            && 1 <= runs <= 1 + (if retry < 0 then 0 else retry)
            && (forall i :: 0 <= i < runs - 1 ==> !succeeds(i))
            && (succeeds(runs - 1) || runs == 1 + (if retry < 0 then 0 else retry))
  {
    var retry := if retries.Some? then retries.value else 2;
    runs := 1;
    if succeeds(0) || retry == 0 {
      return;
    }
    var failures := 1;
    while failures <= retry
      invariant failures == runs && (0 <= retry ==> runs <= 1 + retry) && (retry < 0 ==> runs == 1)
      invariant forall i :: 0 <= i < runs ==> !succeeds(i)
    {
      runs := runs + 1;
      if succeeds(runs - 1) {
        break;
      }
      failures := failures + 1;
    }
  }
}
