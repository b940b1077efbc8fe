/** Calendar arithmetic of the planner: days are whole day numbers, the week
    shown starts on a Monday, and the schedule form names its day by the
    lower-case English weekday. */
module Calendar {
  import opened JsBuiltins

  /** A calendar day, counted from Thursday 1 January 1970 (day 0). */
  type Day = int

  /** Date.prototype.getDay numbering: 0 is Sunday, 1 Monday, ..., 6 Saturday. */
  function Weekday(d: Day): (w: int)
    ensures 0 <= w < 7
  {
    (d + 4) % 7
  }

  /** getWeekStart: the Monday of the week holding d. A Sunday belongs to the
      week that started six days earlier; any other day steps back weekday-1
      days. */
  function WeekStart(d: Day): (m: Day)
    ensures Weekday(m) == 1
    ensures d - 6 <= m <= d
  {
    var day := Weekday(d);
    d - day + (if day == 0 then -6 else 1)
  }

  /** The Monday WeekStart finds is the only Monday in the six days up to d. */
  lemma WeekStartUnique(d: Day, m: Day)
    requires Weekday(m) == 1 && d - 6 <= m <= d
    ensures m == WeekStart(d)
  {
  }

  /** Every day of a shown week has that week's Monday as its week start. */
  lemma WeekStartWithinWeek(d: Day, i: int)
    requires 0 <= i < 7
    ensures WeekStart(WeekStart(d) + i) == WeekStart(d)
  {
  }

  /** Moving the reference day by whole weeks moves the shown week with it. */
  lemma WeekStartShift(d: Day, k: int)
    ensures WeekStart(d + 7 * k) == WeekStart(d) + 7 * k
  {
  }

  /** The seven day keys of the week shown for the reference day, Monday
      first: consecutive days whose weekdays run Monday to Sunday. */
  function WeekDays(ref: Day): (days: seq<Day>)
    ensures |days| == 7
    ensures forall i :: 0 <= i < 7 ==> days[i] == WeekStart(ref) + i
    ensures forall i :: 0 <= i < 7 ==> Weekday(days[i]) == (i + 1) % 7
    ensures forall i :: 0 <= i < 6 ==> days[i + 1] == days[i] + 1
  {
    var m := WeekStart(ref);
    seq(7, i requires 0 <= i < 7 => m + i)
  }

  /** The order of the day names in the schedule handler's lookup table, which
      is getDay's order. */
  const DayNames: seq<string> :=
    ["sunday", "monday", "tuesday", "wednesday", "thursday", "friday", "saturday"]

  /** Array.prototype.indexOf: the first position of x in xs, or -1. */
  function IndexOf<T(==)>(xs: seq<T>, x: T): (r: int)
    ensures -1 <= r < |xs|
    ensures r == -1 <==> x !in xs
    ensures 0 <= r ==> xs[r] == x && x !in xs[..r]
  {
    if xs == [] then -1
    else if xs[0] == x then 0
    else
      var k := IndexOf(xs[1..], x);
      if k == -1 then -1
      else
        assert xs[..k + 1] == [xs[0]] + xs[1..][..k];
        k + 1
  }

  /** The day a select value names, in getDay numbering, or -1 when it names
      none; upper-case ASCII letters are ignored. */
  function DayIndex(value: string): (r: int)
    ensures -1 <= r < 7
  {
    IndexOf(DayNames, LowerAscii(value))
  }

  /** A day value resolves to the weekday whose name is its lower-case form,
      and to -1 exactly when its lower-case form is no day name. */
  lemma DayIndexNames(value: string)
    ensures DayIndex(value) >= 0 ==> LowerAscii(value) == DayNames[DayIndex(value)]
    ensures DayIndex(value) == -1 <==> LowerAscii(value) !in DayNames
  {
  }

  /** The empty value names no day. */
  lemma EmptyNamesNoDay()
    ensures DayIndex("") == -1
  {
    assert LowerAscii("") == "";
  }

  /** Each of the seven values the day selector offers resolves to its own
      weekday. */
  lemma SelectValuesResolve(i: int)
    requires 0 <= i < 7
    ensures DayIndex(DayNames[i]) == i
  {
    LowerAsciiOfLower(DayNames[i]);
    assert DayNames[i] !in DayNames[..i];
  }

  /** How far from Monday a getDay-numbered weekday lies: Sunday is the last
      day of the week, six days after Monday. */
  function MondayOffset(dayIndex: int): (off: int)
    requires 0 <= dayIndex < 7
    ensures 0 <= off < 7
    ensures (off + 1) % 7 == dayIndex
  {
    if dayIndex == 0 then 6 else dayIndex - 1
  }

  /** The day the schedule handler writes for a weekday: inside the week shown
      for ref, and falling on that weekday. */
  function DayInWeek(ref: Day, dayIndex: int): (d: Day)
    requires 0 <= dayIndex < 7
    ensures WeekStart(d) == WeekStart(ref)
    ensures Weekday(d) == dayIndex
  {
    WeekStartWithinWeek(ref, MondayOffset(dayIndex));
    WeekStart(ref) + MondayOffset(dayIndex)
  }
}
