/** The date arithmetic of the store: day distances for GetIncomingTasks and
    the Monday-based week of GetThisWeekTaks (Todo/Repo/InMemTaskRepo.cs). */
module Calendar {
  import opened Models

  /** Values of .NET's `DayOfWeek` enumeration (Sunday = 0 … Saturday = 6). */
  const Sunday := 0
  const Monday := 1
  const Saturday := 6

  /** `DateTime.DayOfWeek` of a day number; day 0 is a Monday. */
  function DayOfWeek(d: Day): (w: nat)
    ensures w <= Saturday
    ensures w == Monday <==> d % 7 == 0
    ensures w == Sunday <==> d % 7 == 6
  {
    (d + 1) % 7
  }

  /** How many days `dayOfWeek` lies after the week's first day `offsetBy`.
      The operand of `%` is at least 1, so C#'s truncating remainder and
      Dafny's agree here. */
  function GetOffsetedDayofWeek(dayOfWeek: int, offsetBy: int): (r: int)
    requires Sunday <= dayOfWeek <= Saturday && Sunday <= offsetBy <= Saturday
    ensures 0 <= r < 7
    ensures (offsetBy + r) % 7 == dayOfWeek
  {
    (dayOfWeek - offsetBy + 7) % 7
  }

  /** Against Monday, the day-of-week offset of day d is d mod 7. */
  lemma MondayOffsetIsDayMod7(d: Day)
    ensures GetOffsetedDayofWeek(DayOfWeek(d), Monday) == d % 7
  {
  }

  /** The Monday that starts d's week: `d.AddDays(-GetOffsetedDayofWeek(
      d.DayOfWeek, Monday)).Date`. It never falls before day 0. */
  function WeekStart(d: Day): (s: int)
    ensures s == d - d % 7
    ensures 0 <= s <= d < s + 7
    ensures DayOfWeek(s) == Monday
  {
    MondayOffsetIsDayMod7(d);
    d - GetOffsetedDayofWeek(DayOfWeek(d), Monday)
  }

  /** `AreFallingInSameWeek(date1, date2)` with its default week start,
      Monday. */
  predicate AreFallingInSameWeek(date1: Day, date2: Day): (r: bool)
    ensures r ==> DayDistance(date1, date2) <= 6
  {
    WeekStart(date1) == WeekStart(date2)
  }

  /** Two days share a week exactly when they have the same week number
      d / 7, counted from the first Monday. */
  lemma SameWeekIffSameWeekNumber(d1: Day, d2: Day)
    ensures AreFallingInSameWeek(d1, d2) <==> d1 / 7 == d2 / 7
  {
  }

  /** Being in the same week is reflexive, symmetric and transitive. */
  lemma SameWeekIsEquivalence(a: Day, b: Day, c: Day)
    ensures AreFallingInSameWeek(a, a)
    ensures AreFallingInSameWeek(a, b) ==> AreFallingInSameWeek(b, a)
    ensures AreFallingInSameWeek(a, b) && AreFallingInSameWeek(b, c) ==> AreFallingInSameWeek(a, c)
  {
  }

  /** A week runs Monday to Sunday: the Sunday closing a week shares it with
      its Monday, while the following Monday starts a new one. */
  lemma WeekRunsMondayToSunday(monday: Day)
    requires DayOfWeek(monday) == Monday
    ensures AreFallingInSameWeek(monday, monday + 6)
    ensures DayOfWeek(monday + 6) == Sunday
    ensures !AreFallingInSameWeek(monday + 6, monday + 7)
  {
  }

  /** Day numbers of dates used by the repository's tests: Friday
      2022-04-08 is day 738252 and Monday 2022-04-11 is day 738255, so the two
      fall in different weeks. Saturday 2022-04-09, day 738253, shares the
      Friday's week. */
  lemma SameWeekExamples()
    ensures DayOfWeek(738252) == 5 && DayOfWeek(738255) == Monday
    ensures AreFallingInSameWeek(738252, 738253)
    ensures !AreFallingInSameWeek(738252, 738255)
  {
  }

  /** `Math.Abs((a - b).Days)`: the number of calendar days between a and b,
      in either direction. */
  function DayDistance(a: Day, b: Day): (r: nat)
    ensures a == b + r || b == a + r
  {
    if a >= b then a - b else b - a
  }
}
