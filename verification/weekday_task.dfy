/** Task descriptors, the parsed document, and `WeekdayTask`: one resolved planner
    entry with its inherited variables and its date text. */
module WeekdayTasks {
  import opened Wrappers
  import opened Errors
  import opened DeferredDicts
  import opened Weekdays

  /** Time used when a descriptor gives no start or end time. */
  const DefaultTime: string := "00:00"

  /** Locale a task uses when its creator names none. */
  const DefaultTaskLocale: string := "en_US"

  /** The mapping under a weekday key of `week_tasks`; a field the YAML leaves out is
      `None`. Keys other than these three are ignored by the planner. */
  datatype Descriptor<V> = Descriptor(
    startTime: Option<string>,
    endTime: Option<string>,
    variables: Option<map<string, V>>)

  /** The parsed top-level document: shared `variables` and the ordered `week_tasks`
      entries, as (weekday name, descriptor) pairs in the order the mapping declares them. */
  datatype Document<V> = Document(
    variables: Option<map<string, V>>,
    weekTasks: Option<seq<(string, Descriptor<V>)>>)

  /** A render-ready task; every field is set once, by `NewTask`. */
  datatype WeekdayTask<V> = WeekdayTask(
    weekday: string,
    startTime: string,
    endTime: string,
    variables: DeferredDict<string, V>,
    weekOffset: int,
    locale: string)

  /** `WeekdayTask.__init__`: times default to "00:00", the descriptor's variables
      (or none) shadow the document's `variables`, which must exist. The weekday name
      is stored as given and is not checked here. */
  function NewTask<V>(weekday: string, desc: Descriptor<V>, parent: Document<V>,
                      weekOffset: int, locale: string): (r: Result<WeekdayTask<V>, Error>)
    ensures r.Failure? <==> parent.variables.None?
    ensures r.Failure? ==> r.error == MissingField("variables")
    ensures r.Success? ==>
              && r.value.weekday == weekday
              && r.value.weekOffset == weekOffset
              && r.value.locale == locale
              && (desc.startTime.Some? ==> r.value.startTime == desc.startTime.value)
              && (desc.startTime.None? ==> r.value.startTime == DefaultTime)
              && (desc.endTime.Some? ==> r.value.endTime == desc.endTime.value)
              && (desc.endTime.None? ==> r.value.endTime == DefaultTime)
              && r.value.variables.parentData == parent.variables.value
              && (desc.variables.Some? ==> r.value.variables.data == desc.variables.value)
              && (desc.variables.None? ==> r.value.variables.data == map[])
  {
    if parent.variables.None? then
      Failure(MissingField("variables"))
    else
      Success(WeekdayTask(
        weekday,
        desc.startTime.GetOr(DefaultTime),
        desc.endTime.GetOr(DefaultTime),
        DeferredDict(desc.variables.GetOr(map[]), parent.variables.value),
        weekOffset,
        locale))
  }

  /** A task variable resolves to the descriptor's value when the descriptor has it,
      else to the document's value, else fails naming the key. */
  lemma TaskVariableLookup<V>(weekday: string, desc: Descriptor<V>, parent: Document<V>,
                              weekOffset: int, locale: string, key: string)
    requires parent.variables.Some?
    ensures var task := NewTask(weekday, desc, parent, weekOffset, locale).value;
            Get(task.variables, key) ==
              if desc.variables.Some? && key in desc.variables.value then Found(desc.variables.value[key])
              else if key in parent.variables.value then Found(parent.variables.value[key])
              else KeyNotFound(key)
  {
  }

  /** The capitalisation step of `formatted_date` (later/__main__.py:91), with `str.upper` as the parameter `upper`: the first character is replaced
      by its upper-case form (which may be several characters) and the rest is kept;
      indexing an empty text fails. */
  function CapitalizeFirst(text: string, upper: char -> string): (r: Result<string, Error>)
    ensures r.Failure? <==> text == []
    ensures r.Failure? ==> r.error == EmptyDateText
    ensures r.Success? ==> |r.value| == |upper(text[0])| + |text| - 1
    ensures r.Success? ==> r.value[..|upper(text[0])|] == upper(text[0])
    ensures r.Success? ==> r.value[|upper(text[0])|..] == text[1..]
    ensures r.Success? && upper(text[0]) == [text[0]] ==> r.value == text
  {
    if text == [] then Failure(EmptyDateText) else Success(upper(text[0]) + text[1..])
  }

  /** `WeekdayTask.formatted_date` for the given `today`. `localize(locale, day)` stands
      for setting the locale and formatting `day` as "<weekday name>, <day> <month name>";
      it gives `None` when the locale is not available. The weekday is looked up before
      the locale is touched, so an unknown weekday is reported first. */
  function FormattedDate<V>(task: WeekdayTask<V>, today: int,
                            localize: (string, int) -> Option<string>,
                            upper: char -> string): (r: Result<string, Error>)
    ensures task.weekday !in WeekdayMap ==> r == Failure(UnknownWeekday(task.weekday))
    ensures task.weekday in WeekdayMap ==>
              var day := TaskDate(today, task.weekOffset, task.weekday).value;
              && (localize(task.locale, day).None? ==> r == Failure(LocaleUnavailable(task.locale)))
              && (localize(task.locale, day).Some? ==>
                    r == CapitalizeFirst(localize(task.locale, day).value, upper))
  {
    var day :- TaskDate(today, task.weekOffset, task.weekday);
    var text :- if localize(task.locale, day).Some? then Success(localize(task.locale, day).value)
                else Failure(LocaleUnavailable(task.locale));
    CapitalizeFirst(text, upper)
  }

  /** Every known weekday gets a date text whenever the locale is available and gives a
      non-empty text for the task's day; the text formats a day of the requested weekday inside the
      requested week, and only its first character may differ from the localised text. */
  lemma FormattedDateSucceeds<V>(task: WeekdayTask<V>, today: int,
                                 localize: (string, int) -> Option<string>, upper: char -> string)
    requires task.weekday in WeekdayMap
    requires localize(task.locale, TaskDate(today, task.weekOffset, task.weekday).value).Some?
    requires localize(task.locale, TaskDate(today, task.weekOffset, task.weekday).value).value != []
    ensures var day := TaskDate(today, task.weekOffset, task.weekday).value;
            var text := localize(task.locale, day).value;
            && Weekday(day) == WeekdayMap[task.weekday]
            && FirstDay(today, task.weekOffset) <= day < FirstDay(today, task.weekOffset) + DaysPerWeek
            && FormattedDate(task, today, localize, upper).Success?
            && FormattedDate(task, today, localize, upper).value[|upper(text[0])|..] == text[1..]
  {
  }

  /** Reading the date text a week later is the same as raising the offset by one. */
  lemma FormattedDateNextWeek<V>(task: WeekdayTask<V>, today: int,
                                 localize: (string, int) -> Option<string>, upper: char -> string)
    ensures FormattedDate(task.(weekOffset := task.weekOffset + 1), today, localize, upper) ==
            FormattedDate(task, today + DaysPerWeek, localize, upper)
  {
    if task.weekday in WeekdayMap {
      assert AnchorDay(today, task.weekOffset + 1) == AnchorDay(today + DaysPerWeek, task.weekOffset);
    }
  }

  /** The date text is not memoised but is stable within a week: any two days of the same
      week give the same text. */
  lemma FormattedDateSameWeek<V>(task: WeekdayTask<V>, today1: int, today2: int,
                                 localize: (string, int) -> Option<string>, upper: char -> string)
    requires FirstDay(today1, 0) <= today2 < FirstDay(today1, 0) + DaysPerWeek
    ensures FormattedDate(task, today1, localize, upper) == FormattedDate(task, today2, localize, upper)
  {
    SameWeekSameDate(today1, today2, task.weekOffset, task.weekday);
  }
}
