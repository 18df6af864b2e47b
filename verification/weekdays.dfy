/** The fixed weekday table and the integer part of a task's date: the planner
    works on Python day numbers (`date.toordinal()`, where day 1 is Monday
    1 January of year 1), and "today" is a parameter instead of a clock reading. */
module Weekdays {
  import opened Wrappers
  import opened Errors

  const DaysPerWeek: int := 7

  /** `WEEKDAY_MAP`: Monday-first, ISO-style numbering 0..6. */
  const WeekdayMap: map<string, int> := map[
    "monday" := 0,
    "tuesday" := 1,
    "wednesday" := 2,
    "thursday" := 3,
    "friday" := 4,
    "saturday" := 5,
    "sunday" := 6
  ]

  /** The same seven names listed by number, used as the table's inverse. */
  const WeekdayNames: seq<string> :=
    ["monday", "tuesday", "wednesday", "thursday", "friday", "saturday", "sunday"]

  /** The table is a bijection between the seven names and 0..6, monday first. */
  lemma WeekdayMapIsBijection()
    ensures |WeekdayNames| == DaysPerWeek && |WeekdayMap| == DaysPerWeek
    ensures WeekdayMap.Keys == set i | 0 <= i < DaysPerWeek :: WeekdayNames[i]
    ensures forall i :: 0 <= i < DaysPerWeek ==> WeekdayMap[WeekdayNames[i]] == i
    ensures forall name :: name in WeekdayMap ==>
              0 <= WeekdayMap[name] < DaysPerWeek && WeekdayNames[WeekdayMap[name]] == name
    ensures WeekdayMap["monday"] == 0 && WeekdayMap["sunday"] == 6
  {
    assert WeekdayMap.Keys == {"monday", "tuesday", "wednesday", "thursday", "friday", "saturday", "sunday"};
    forall name | name in WeekdayMap
      ensures 0 <= WeekdayMap[name] < DaysPerWeek && WeekdayNames[WeekdayMap[name]] == name
    {
    }
  }

  /** The lookup `WEEKDAY_MAP[name]`, whose `KeyError` is an unknown weekday. */
  function WeekdayNumber(name: string): (r: Result<int, Error>)
    ensures r.Success? <==> name in WeekdayNames
    ensures r.Success? ==> 0 <= r.value < DaysPerWeek && WeekdayNames[r.value] == name
    ensures r.Failure? ==> r.error == UnknownWeekday(name)
  {
    WeekdayMapIsBijection();
    if name in WeekdayMap then Success(WeekdayMap[name]) else Failure(UnknownWeekday(name))
  }

  /** `date.weekday()` of a day number: Monday is 0 and Sunday is 6. */
  function Weekday(day: int): (w: int)
    ensures 0 <= w < DaysPerWeek
    ensures (day - w) % DaysPerWeek == 1
  {
    (day + 6) % DaysPerWeek
  }

  /** The anchor day of `formatted_date` (later/__main__.py:73): `today` moved by `weekOffset` whole weeks. */
  function AnchorDay(today: int, weekOffset: int): int {
    today + DaysPerWeek * weekOffset
  }

  /** The first day of `formatted_date` (later/__main__.py:76): the Monday of the anchor day's week. */
  function FirstDay(today: int, weekOffset: int): (monday: int)
    ensures Weekday(monday) == 0
    ensures monday <= AnchorDay(today, weekOffset) < monday + DaysPerWeek
  {
    var week := AnchorDay(today, weekOffset);
    week - Weekday(week)
  }

  /** The task date of `formatted_date` (later/__main__.py:79-82): the date of a task on `weekday`, in the week `weekOffset` weeks
      away from the week that holds `today`. */
  function TaskDate(today: int, weekOffset: int, weekday: string): (r: Result<int, Error>)
    ensures r.Failure? <==> weekday !in WeekdayMap
    ensures r.Failure? ==> r.error == UnknownWeekday(weekday)
    ensures r.Success? ==> Weekday(r.value) == WeekdayMap[weekday]
    ensures r.Success? ==>
              FirstDay(today, weekOffset) <= r.value <= FirstDay(today, weekOffset) + DaysPerWeek - 1
  {
    var n :- WeekdayNumber(weekday);
    Success(FirstDay(today, weekOffset) + n)
  }

  /** Moving a day by whole weeks keeps its weekday. */
  lemma {:induction false} WeekdayPeriodic(day: int, weeks: int)
    ensures Weekday(day + DaysPerWeek * weeks) == Weekday(day)
    decreases if weeks < 0 then -weeks else weeks
  {
    if weeks > 0 {
      WeekdayPeriodic(day, weeks - 1);
      assert day + DaysPerWeek * weeks == (day + DaysPerWeek * (weeks - 1)) + DaysPerWeek;
    } else if weeks < 0 {
      WeekdayPeriodic(day, weeks + 1);
      assert day + DaysPerWeek * (weeks + 1) == (day + DaysPerWeek * weeks) + DaysPerWeek;
    }
  }

  /** The Monday found by `FirstDay` is the only Monday whose week holds the anchor day. */
  lemma FirstDayUnique(today: int, weekOffset: int, monday: int)
    requires Weekday(monday) == 0
    requires monday <= AnchorDay(today, weekOffset) < monday + DaysPerWeek
    ensures monday == FirstDay(today, weekOffset)
  {
    var week := AnchorDay(today, weekOffset);
    var k := week - monday;
    assert 0 <= k < DaysPerWeek;
    assert Weekday(week) == (Weekday(monday) + k) % DaysPerWeek;
  }

  /** Shifting the offset by `weeks` shifts the week's Monday by exactly `7 * weeks` days. */
  lemma FirstDayShift(today: int, weekOffset: int, weeks: int)
    ensures FirstDay(today, weekOffset + weeks) == FirstDay(today, weekOffset) + DaysPerWeek * weeks
  {
    var monday := FirstDay(today, weekOffset) + DaysPerWeek * weeks;
    WeekdayPeriodic(FirstDay(today, weekOffset), weeks);
    assert AnchorDay(today, weekOffset + weeks) == AnchorDay(today, weekOffset) + DaysPerWeek * weeks;
    FirstDayUnique(today, weekOffset + weeks, monday);
  }

  /** Shifting the offset by `weeks` moves a task's date by exactly `7 * weeks` days. */
  lemma TaskDateShift(today: int, weekOffset: int, weeks: int, weekday: string)
    requires weekday in WeekdayMap
    ensures TaskDate(today, weekOffset + weeks, weekday).value ==
            TaskDate(today, weekOffset, weekday).value + DaysPerWeek * weeks
  {
    FirstDayShift(today, weekOffset, weeks);
  }

  /** Raising the offset by one moves the date exactly one week later. */
  lemma TaskDateNextWeek(today: int, weekOffset: int, weekday: string)
    requires weekday in WeekdayMap
    ensures TaskDate(today, weekOffset + 1, weekday).value ==
            TaskDate(today, weekOffset, weekday).value + DaysPerWeek
  {
    TaskDateShift(today, weekOffset, 1, weekday);
  }

  /** A closed form of the date: the distance from `today` is the offset in days plus
      the difference between the requested weekday and today's weekday. */
  lemma TaskDateClosedForm(today: int, weekOffset: int, weekday: string)
    requires weekday in WeekdayMap
    ensures TaskDate(today, weekOffset, weekday).value ==
            today + DaysPerWeek * weekOffset + WeekdayMap[weekday] - Weekday(today)
  {
    WeekdayPeriodic(today, weekOffset);
  }

  /** With offset 0 the week is the week that holds today; its Monday is
      `today - weekday(today)`, and offsets 1 and -1 give the Mondays 7 days later and earlier. */
  lemma CurrentWeek(today: int, weekday: string)
    requires weekday in WeekdayMap
    ensures FirstDay(today, 0) <= today < FirstDay(today, 0) + DaysPerWeek
    ensures FirstDay(today, 0) <= TaskDate(today, 0, weekday).value < FirstDay(today, 0) + DaysPerWeek
    ensures TaskDate(today, 0, "monday") == Success(today - Weekday(today))
    ensures TaskDate(today, 1, "monday") == Success(today - Weekday(today) + DaysPerWeek)
    ensures TaskDate(today, -1, "monday") == Success(today - Weekday(today) - DaysPerWeek)
  {
    FirstDayShift(today, 0, 1);
    FirstDayShift(today, 0, -1);
  }

  /** The date depends on today only through today's week: two days of the same week
      give every task the same date. */
  lemma SameWeekSameDate(today1: int, today2: int, weekOffset: int, weekday: string)
    requires FirstDay(today1, 0) <= today2 < FirstDay(today1, 0) + DaysPerWeek
    ensures TaskDate(today1, weekOffset, weekday) == TaskDate(today2, weekOffset, weekday)
  {
    FirstDayUnique(today2, 0, FirstDay(today1, 0));
    FirstDayShift(today1, 0, weekOffset);
    FirstDayShift(today2, 0, weekOffset);
  }
}
