/** Wait nodes: how long, or until which clock time (waitUntil, validClock). */
module Waits {
  import opened Prelude

  /** Instants and lengths of time are counted in nanoseconds since the Unix epoch. */
  const SECOND: int := 1_000_000_000
  const DAY: int := 86400 * SECOND

  const MIN_WAIT: int := 60
  const MAX_WAIT: int := 31536000

  predicate IsDigit(c: char) { '0' <= c <= '9' }

  function DigitValue(c: char): (d: nat)
    requires IsDigit(c)
    ensures d <= 9
  {
    c as int - '0' as int
  }

  predicate AllDigits(s: string) { forall i :: 0 <= i < |s| ==> IsDigit(s[i]) }

  function DigitsValue(s: string): nat
    requires AllDigits(s)
  {
    if s == [] then 0 else 10 * DigitsValue(s[..|s| - 1]) + DigitValue(Last(s))
  }

  /** strconv.Atoi: an optional sign, at least one digit, and a value that fits 64 bits. */
  function Atoi(s: string): Option<int> {
    var digits := if s != [] && (s[0] == '-' || s[0] == '+') then s[1..] else s;
    if digits == [] || !AllDigits(digits) then None
    else
      var value: int := if s[0] == '-' then -(DigitsValue(digits) as int) else DigitsValue(digits);
      if -0x8000_0000_0000_0000 <= value < 0x8000_0000_0000_0000 then Some(value) else None
  }

  /** Where `c` first occurs in `s`, or the length of `s` if it does not. */
  function IndexOf(s: string, c: char): (i: nat)
    ensures i <= |s|
    ensures forall j :: 0 <= j < i ==> s[j] != c
    ensures i < |s| ==> s[i] == c
  {
    if s == [] || s[0] == c then 0 else 1 + IndexOf(s[1..], c)
  }

  datatype Clock = Clock(hour: int, minute: int)

  predicate InDay(c: Clock) { 0 <= c.hour <= 23 && 0 <= c.minute <= 59 }

  /**
   * The engine's reading of a clock text: splitting at colons must give two parts, both must be
   * integers, and both must be in range.
   */
  function ReadClock(s: string): (r: Option<Clock>)
    ensures r.Some? ==> InDay(r.value)
  {
    var colon := IndexOf(s, ':');
    if colon == |s| || ':' in s[colon + 1..] then None
    else
      match (Atoi(s[..colon]), Atoi(s[colon + 1..]))
      case (Some(h), Some(m)) => if InDay(Clock(h, m)) then Some(Clock(h, m)) else None
      case _ => None
  }

  /** The validator's reading: time.Parse("15:04", s) accepts and the text has five characters. */
  predicate ValidClock(s: string) {
    && |s| == 5 && s[2] == ':'
    && IsDigit(s[0]) && IsDigit(s[1]) && IsDigit(s[3]) && IsDigit(s[4])
    && 10 * DigitValue(s[0]) + DigitValue(s[1]) <= 23
    && 10 * DigitValue(s[3]) + DigitValue(s[4]) <= 59
  }

  lemma TwoDigits(s: string)
    requires |s| == 2 && AllDigits(s)
    ensures Atoi(s) == Some(10 * DigitValue(s[0]) + DigitValue(s[1]))
  {
    assert s[..1][..0] == [];
    assert DigitsValue(s[..1]) == DigitValue(s[0]);
  }

  /** What the validator accepts the engine reads, and reads as the same time of day. */
  lemma ValidClockReads(s: string)
    requires ValidClock(s)
    ensures ReadClock(s) ==
            Some(Clock(10 * DigitValue(s[0]) + DigitValue(s[1]), 10 * DigitValue(s[3]) + DigitValue(s[4])))
  {
    assert IndexOf(s, ':') == 2;
    TwoDigits(s[..2]);
    TwoDigits(s[3..]);
  }

  /** Day number and position within the day of an instant, in a zone `offset` ahead of UTC. */
  function DayOf(t: int, offset: int): int { (t + offset) / DAY }

  function TimeOfDay(t: int, offset: int): int { (t + offset) % DAY }

  /** 0 is Sunday; day zero of the epoch was a Thursday. */
  function Weekday(day: int): int { (day + 4) % 7 }

  function ClockInstant(c: Clock): int { (c.hour * 3600 + c.minute * 60) * SECOND }

  /** The instant shows the given clock time and, when one is asked for, falls on that ISO weekday. */
  ghost predicate Matches(t: int, offset: int, clock: Clock, weekday: Option<int>) {
    && TimeOfDay(t, offset) == ClockInstant(clock)
    && (weekday.Some? ==> Weekday(DayOf(t, offset)) == weekday.value % 7)
  }

  /** The first day from `today` on that falls on the asked weekday. */
  function TargetDay(today: int, weekday: Option<int>): int {
    match weekday
    case None => today
    case Some(iso) => today + (iso % 7 - Weekday(today) + 7) % 7
  }

  /** The "until" branch: today at the clock time, moved to the weekday, then past now. */
  function NextOccurrence(now: int, offset: int, clock: Clock, weekday: Option<int>): (target: int)
  {
    var target := TargetDay(DayOf(now, offset), weekday) * DAY + ClockInstant(clock) - offset;
    if target > now then target
    else target + (if weekday.None? then DAY else 7 * DAY)
  }

  lemma SplitInstant(t: int, offset: int)
    ensures t + offset == DayOf(t, offset) * DAY + TimeOfDay(t, offset)
    ensures 0 <= TimeOfDay(t, offset) < DAY
  {
  }

  lemma JoinInstant(day: int, rest: int, offset: int)
    requires 0 <= rest < DAY
    ensures DayOf(day * DAY + rest - offset, offset) == day
    ensures TimeOfDay(day * DAY + rest - offset, offset) == rest
  {
  }

  lemma TargetDayFits(today: int, weekday: Option<int>)
    ensures var day := TargetDay(today, weekday);
            && today <= day < today + 7
            && (weekday.Some? ==> Weekday(day) == weekday.value % 7 && Weekday(day + 7) == weekday.value % 7)
  {
  }

  lemma SameWeekday(a: int, b: int)
    requires Weekday(a) == Weekday(b) && a < b
    ensures a + 7 <= b
  {
  }

  lemma DaysApart(a: int, b: int)
    ensures a <= b ==> a * DAY <= b * DAY
    ensures a < b ==> a * DAY + DAY <= b * DAY
  {
  }

  lemma DaysLater(day: int, k: int)
    ensures (day + k) * DAY == day * DAY + k * DAY
  {
  }

  /** Today at the clock time or some days on, moved past now: after now, and within a week of it. */
  lemma WithinAWeek(n: int, today: int, rest: int, target: int, at: int, unit: int, weekly: bool)
    requires n == today + rest && 0 <= rest < unit && 0 <= at < unit
    requires today <= target <= today + 6 * unit && (!weekly ==> target == today)
    ensures target + at > n ==> target + at <= n + 7 * unit
    ensures target + at <= n ==> n < target + at + (if weekly then 7 * unit else unit) <= n + 7 * unit
  {
  }

  /** The chosen instant, by its day: some day from today on that falls on the asked weekday. */
  lemma NextOccurrenceDay(now: int, offset: int, clock: Clock, weekday: Option<int>) returns (day: int)
    requires InDay(clock)
    ensures NextOccurrence(now, offset, clock, weekday) == day * DAY + ClockInstant(clock) - offset
    ensures DayOf(now, offset) <= day && (weekday.Some? ==> Weekday(day) == weekday.value % 7)
  {
    var first := TargetDay(DayOf(now, offset), weekday);
    TargetDayFits(DayOf(now, offset), weekday);
    hide DayOf, Weekday, TargetDay, ClockInstant;
    DaysLater(first, 1);
    DaysLater(first, 7);
    day := if first * DAY + ClockInstant(clock) - offset > now then first
           else if weekday.None? then first + 1 else first + 7;
  }

  lemma NextOccurrenceIsSoon(now: int, offset: int, clock: Clock, weekday: Option<int>)
    requires InDay(clock)
    ensures now < NextOccurrence(now, offset, clock, weekday) <= now + 7 * DAY
  {
    var at, today := ClockInstant(clock), DayOf(now, offset);
    assert 0 <= at < DAY;
    var day := TargetDay(today, weekday);
    assert weekday.None? ==> day == today;
    hide DayOf, TimeOfDay, Weekday, TargetDay, ClockInstant;
    SplitInstant(now, offset);
    TargetDayFits(today, weekday);
    DaysApart(today, day);
    DaysApart(day, today + 6);
    DaysLater(today, 6);
    WithinAWeek(now + offset, today * DAY, TimeOfDay(now, offset), day * DAY, at, DAY, weekday.Some?);
  }

  lemma NextOccurrenceMatches(now: int, offset: int, clock: Clock, weekday: Option<int>)
    requires InDay(clock)
    ensures var target := NextOccurrence(now, offset, clock, weekday);
            && now < target <= now + 7 * DAY
            && Matches(target, offset, clock, weekday)
            && DayOf(now, offset) <= DayOf(target, offset)
  {
    assert 0 <= ClockInstant(clock) < DAY;
    hide DayOf, TimeOfDay, Weekday, NextOccurrence, ClockInstant;
    NextOccurrenceIsSoon(now, offset, clock, weekday);
    var day := NextOccurrenceDay(now, offset, clock, weekday);
    JoinInstant(day, ClockInstant(clock), offset);
  }

  /** The wait ends at the first matching instant that lies strictly after now. */
  lemma NextOccurrenceIsFirst(now: int, offset: int, clock: Clock, weekday: Option<int>, t: int)
    requires InDay(clock)
    requires now < t && Matches(t, offset, clock, weekday)
    ensures NextOccurrence(now, offset, clock, weekday) <= t
  {
    hide DayOf, TimeOfDay, Weekday;
    var today, other := DayOf(now, offset), DayOf(t, offset);
    var day := TargetDay(today, weekday);
    var at := ClockInstant(clock);
    SplitInstant(now, offset);
    SplitInstant(t, offset);
    TargetDayFits(today, weekday);
    DaysApart(other, today);
    assert today <= other;
    DaysApart(day, other);
    DaysApart(other, day);
    if other < day {
      SameWeekday(other, day);
    } else if other == day {
      assert t == day * DAY + at - offset;
    } else if weekday.Some? {
      SameWeekday(day, other);
      DaysApart(day + 7, other);
    } else {
      DaysApart(day + 1, other);
    }
  }
}
