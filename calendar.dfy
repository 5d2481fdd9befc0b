/**
 * The calendar facts the scheduler and the dashboard read from PHP's DateTime:
 * the day of the month ('d'), the ISO-8601 weekday ('N', 1 = Monday ... 7 = Sunday),
 * and timestamps in seconds. A month is identified by the weekday of its 1st;
 * the weekday of any other day follows by counting days.
 */
module Calendar {

  type Weekday = w: int | 1 <= w <= 7 witness 1

  const Monday: Weekday := 1
  const Friday: Weekday := 5
  const Saturday: Weekday := 6
  const Sunday: Weekday := 7

  const HourSeconds: int := 3600
  const DaySeconds: int := 86400

  predicate IsWeekend(w: Weekday)
  {
    w >= Saturday
  }

  /** The weekday k days after a day whose weekday is w (k may be negative). */
  function ShiftWeekday(w: Weekday, k: int): (r: Weekday)
    ensures k % 7 == 0 ==> r == w
  {
    ((w - 1 + k) % 7) + 1
  }

  /** One calendar day, as seen by DateTime::format('d') and format('N'). */
  datatype Day = Day(dayOfMonth: int, weekday: Weekday)

  /** The day numbered dom of the month whose 1st falls on first. */
  function DayInMonth(first: Weekday, dom: int): Day
  {
    Day(dom, ShiftWeekday(first, dom - 1))
  }

  /** The day k days after d, inside the same month (DateInterval add/sub). */
  function AddDays(d: Day, k: int): Day
  {
    Day(d.dayOfMonth + k, ShiftWeekday(d.weekday, k))
  }

  /** The calendar date of a timestamp, as days since the epoch (gmdate('Y-m-d')). */
  function DateOf(t: int): int
  {
    t / DaySeconds
  }

  /** A timestamp k whole days later falls on the date k days later. */
  lemma DateOfAddDays(t: int, k: int)
    ensures DateOf(t + k * DaySeconds) == DateOf(t) + k
  {
    var q, r := t / DaySeconds, t % DaySeconds;
    assert t + k * DaySeconds == (q + k) * DaySeconds + r;
  }

  /** Counting k days forward within one week needs no wrap-around. */
  lemma ShiftWeekdayNoWrap(w: Weekday, k: int)
    requires 0 <= w - 1 + k < 7
    ensures ShiftWeekday(w, k) == w + k
  {
  }

  /** Counting k days forward past one Sunday wraps around once. */
  lemma ShiftWeekdayWrapOnce(w: Weekday, k: int)
    requires 7 <= w - 1 + k < 14
    ensures ShiftWeekday(w, k) == w + k - 7
  {
  }

  /** Counting a days and then b days is counting a + b days. */
  lemma ShiftWeekdayAdd(w: Weekday, a: int, b: int)
    ensures ShiftWeekday(ShiftWeekday(w, a), b) == ShiftWeekday(w, a + b)
  {
    var x := w - 1 + a;
    ModShift(x / 7, x % 7 + b);
    assert x + b == 7 * (x / 7) + (x % 7 + b);
  }

  lemma ModShift(q: int, y: int)
    ensures (7 * q + y) % 7 == y % 7
  {
    var r := y % 7;
    var p := y / 7;
    assert 7 * q + y == 7 * (q + p) + r;
    assert 0 <= r < 7;
  }

  /** Counting days forward then back lands on the same weekday. */
  lemma ShiftWeekdayInverse(w: Weekday, k: int)
    ensures ShiftWeekday(ShiftWeekday(w, k), -k) == w
  {
    ShiftWeekdayAdd(w, k, -k);
  }

  /** Moving k days on from day dom of a month gives its day dom + k. */
  lemma DayInMonthAddDays(first: Weekday, dom: int, k: int)
    ensures AddDays(DayInMonth(first, dom), k) == DayInMonth(first, dom + k)
  {
    ShiftWeekdayAdd(first, dom - 1, k);
  }
}
