/** `render_template`: builds one task per `week_tasks` entry and hands them, with the
    shared variables, to the template engine. The engine is a parameter of the model. */
module Render {
  import opened Wrappers
  import opened Errors
  import opened DeferredDicts
  import opened WeekdayTasks
  import opened Weekdays

  /** Locale `render_template` uses when its caller names none. */
  const DefaultRenderLocale: string := "en_US.UTF-8"

  /** What the template sees: the tasks in declaration order and the shared variables. */
  datatype Bindings<V> = Bindings(weekTasks: seq<WeekdayTask<V>>, variables: map<string, V>)

  /** The list comprehension in `render_template` (later/__main__.py:117-120): one task per entry, in order, all with the
      same offset and locale; the first failing construction aborts the list. */
  function BuildTasks<V>(entries: seq<(string, Descriptor<V>)>, doc: Document<V>,
                         weekOffset: int, locale: string): (r: Result<seq<WeekdayTask<V>>, Error>)
    ensures r.Failure? <==> |entries| > 0 && doc.variables.None?
    ensures r.Failure? ==> r.error == MissingField("variables")
    ensures r.Success? ==> |r.value| == |entries|
    ensures r.Success? ==> forall i :: 0 <= i < |entries| ==>
              && r.value[i].weekday == entries[i].0
              && r.value[i].weekOffset == weekOffset
              && r.value[i].locale == locale
              && Success(r.value[i]) == NewTask(entries[i].0, entries[i].1, doc, weekOffset, locale)
  {
    if entries == [] then
      Success([])
    else
      match NewTask(entries[0].0, entries[0].1, doc, weekOffset, locale)
      case Failure(e) => Failure(e)
      case Success(head) =>
        match BuildTasks(entries[1..], doc, weekOffset, locale)
        case Failure(e) => Failure(e)
        case Success(tail) => Success([head] + tail)
  }

  /** The first half of `render_template` (later/__main__.py:114-122): `week_tasks` is read first, then the tasks are built, then the shared
      `variables` are read. A missing `week_tasks` is reported before anything else. */
  function PrepareBindings<V>(doc: Document<V>, locale: string, weekOffset: int): (r: Result<Bindings<V>, Error>)
    ensures doc.weekTasks.None? ==> r == Failure(MissingField("week_tasks"))
    ensures doc.weekTasks.Some? && doc.variables.None? ==> r == Failure(MissingField("variables"))
    ensures r.Success? <==> doc.weekTasks.Some? && doc.variables.Some?
    ensures r.Success? ==>
              && r.value.variables == doc.variables.value
              && |r.value.weekTasks| == |doc.weekTasks.value|
              && forall i :: 0 <= i < |r.value.weekTasks| ==>
                   var (name, desc) := doc.weekTasks.value[i];
                   Success(r.value.weekTasks[i]) == NewTask(name, desc, doc, weekOffset, locale)
  {
    if doc.weekTasks.None? then
      Failure(MissingField("week_tasks"))
    else
      var tasks :- BuildTasks(doc.weekTasks.value, doc, weekOffset, locale);
      if doc.variables.None? then
        Failure(MissingField("variables"))
      else
        Success(Bindings(tasks, doc.variables.value))
  }

  /** `render_template`: all or nothing. Any failure while preparing the bindings is the
      result and the engine is not consulted; otherwise the engine's result, text or
      error, is returned unchanged. */
  function RenderTemplate<V>(template: string, doc: Document<V>, locale: string, weekOffset: int,
                             engine: (string, Bindings<V>) -> Result<string, Error>): (r: Result<string, Error>)
    ensures doc.weekTasks.None? ==> r == Failure(MissingField("week_tasks"))
    ensures doc.weekTasks.Some? && doc.variables.None? ==> r == Failure(MissingField("variables"))
    ensures doc.weekTasks.Some? && doc.variables.Some? ==>
              r == engine(template, PrepareBindings(doc, locale, weekOffset).value)
  {
    var bindings :- PrepareBindings(doc, locale, weekOffset);
    engine(template, bindings)
  }

  /** A document without `week_tasks` fails the same way whatever the template and
      whatever the engine would do: no template work takes place. */
  lemma MissingWeekTasksFailsBeforeTemplate<V>(template1: string, template2: string, doc: Document<V>,
                                               locale: string, weekOffset: int,
                                               engine1: (string, Bindings<V>) -> Result<string, Error>,
                                               engine2: (string, Bindings<V>) -> Result<string, Error>)
    requires doc.weekTasks.None?
    ensures RenderTemplate(template1, doc, locale, weekOffset, engine1) ==
            RenderTemplate(template2, doc, locale, weekOffset, engine2) ==
            Failure(MissingField("week_tasks"))
  {
  }

  /** Each task seen by the template resolves its variables against its own descriptor
      first and the document's shared variables second. */
  lemma BoundTaskLookup<V>(doc: Document<V>, locale: string, weekOffset: int, i: int, key: string)
    requires PrepareBindings(doc, locale, weekOffset).Success?
    requires 0 <= i < |doc.weekTasks.value|
    ensures var b := PrepareBindings(doc, locale, weekOffset).value;
            var desc := doc.weekTasks.value[i].1;
            && b.weekTasks[i].weekday == doc.weekTasks.value[i].0
            && Get(b.weekTasks[i].variables, key) ==
                 if desc.variables.Some? && key in desc.variables.value then Found(desc.variables.value[key])
                 else if key in b.variables then Found(b.variables[key])
                 else KeyNotFound(key)
  {
    var b := PrepareBindings(doc, locale, weekOffset).value;
    var (name, desc) := doc.weekTasks.value[i];
    TaskVariableLookup(name, desc, doc, weekOffset, locale, key);
  }

  /** With the defaults of `render_template` (its locale and offset 0), every task the
      template sees carries that locale and offset 0 and the date of the week holding today. */
  lemma RenderDefaults<V>(doc: Document<V>, today: int, i: int)
    requires PrepareBindings(doc, DefaultRenderLocale, 0).Success?
    requires 0 <= i < |doc.weekTasks.value|
    ensures var task := PrepareBindings(doc, DefaultRenderLocale, 0).value.weekTasks[i];
            && task.locale == DefaultRenderLocale
            && task.weekOffset == 0
            && (task.weekday in WeekdayMap ==>
                  FirstDay(today, 0) <= today < FirstDay(today, 0) + DaysPerWeek &&
                  FirstDay(today, 0) <= TaskDate(today, 0, task.weekday).value < FirstDay(today, 0) + DaysPerWeek)
  {
    var task := PrepareBindings(doc, DefaultRenderLocale, 0).value.weekTasks[i];
    if task.weekday in WeekdayMap {
      CurrentWeek(today, task.weekday);
    }
  }
}
