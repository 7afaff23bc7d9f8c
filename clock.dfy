/** Wall-clock time as the modelled code reads it through date-fns.

    An instant is an integer number of milliseconds since the epoch, already
    shifted to local time, so a calendar day is a whole multiple of `MsPerDay`
    and daylight-saving transitions do not occur. */
module Clock {

  const MsPerMinute := 60000
  const MinutesPerDay := 1440
  const MsPerDay := 86400000

  /** `Math.trunc(a / b)`: division that rounds toward zero, unlike Dafny's `/`. */
  function TruncDiv(a: int, b: int): int
    requires b > 0
  {
    if a >= 0 then a / b else -((-a) / b)
  }

  /** `differenceInDays(later, earlier)`: the number of FULL days between the
      two instants, negative when `later` is before `earlier`. */
  function DifferenceInDays(later: int, earlier: int): (d: int)
    ensures later >= earlier ==> d >= 0 && d * MsPerDay <= later - earlier < (d + 1) * MsPerDay
    ensures later < earlier ==> d <= 0 && (-d) * MsPerDay <= earlier - later < (-d + 1) * MsPerDay
  {
    TruncDiv(later - earlier, MsPerDay)
  }

  /** The minutes since midnight of `format(t, 'HH:mm')`: seconds are dropped. */
  function MinuteOfDay(t: int): (m: int)
    ensures 0 <= m < MinutesPerDay
  {
    (t / MsPerMinute) % MinutesPerDay
  }

  /** The calendar day of `format(t, 'yyyy-MM-dd')`, as a day number. */
  function CalendarDay(t: int): int {
    t / MsPerDay
  }

  function Abs(x: int): nat {
    if x < 0 then -x else x
  }

  /** Instants less than a day apart in either direction are zero whole days apart. */
  lemma DifferenceWithinADay(later: int, earlier: int)
    requires -MsPerDay < later - earlier < MsPerDay
    ensures DifferenceInDays(later, earlier) == 0
  {
  }

  /** Moving forward by whole minutes that stay within the same day moves the clock reading by as many minutes. */
  lemma {:induction false} MinuteOfDayAdvance(t: int, k: nat)
    requires MinuteOfDay(t) + k < MinutesPerDay
    ensures MinuteOfDay(t + k * MsPerMinute) == MinuteOfDay(t) + k
  {
    var q := t / MsPerMinute;
    assert (t + k * MsPerMinute) / MsPerMinute == q + k;
    var r := q % MinutesPerDay;
    assert q == (q / MinutesPerDay) * MinutesPerDay + r;
    assert q + k == (q / MinutesPerDay) * MinutesPerDay + (r + k);
  }
}
