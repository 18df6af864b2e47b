# later — weekly planner core, modelled in Dafny

`later` renders a weekly planner. A YAML document holds shared `variables` and
`week_tasks`, a mapping from weekday name to task descriptor. Each entry becomes a
`WeekdayTask`: its times default to `"00:00"`, and its variables are a `DeferredDict`,
a two-level lookup where the task's own variables shadow the document's. Each task also
computes its date: today is moved by `week_offset` weeks, stepped back to that week's
Monday, and moved forward by the weekday's number from `WEEKDAY_MAP`. The date is then
printed in the chosen locale. The tasks and the shared variables go to a Jinja2 template.

The project has six modules:

- `Wrappers`: `Option` and `Result`.
- `Errors`: the failures of a render (`MissingField`, `UnknownWeekday`,
  `LocaleUnavailable`, `EmptyDateText`, `TemplateError`).
- `DeferredDicts`: the two-level lookup.
- `Weekdays`: `WEEKDAY_MAP` and the date arithmetic, on Python day numbers
  (`date.toordinal()`, with `weekday(d) = (d + 6) % 7`).
- `WeekdayTasks`: documents, descriptors, task construction and the date text.
- `Render`: the task list and `render_template`.

The source is pure apart from the locale call, so the model uses datatypes, functions
and lemmas only. Things outside the program are passed in as parameters:

- The clock becomes `today`.
- `setlocale` plus `strftime("%A, %-d %B")` becomes `localize(locale, day)`. It returns
  `None` when the locale is missing.
- `str.upper` on one character becomes `upper`.
- The Jinja2 render becomes `engine(template, bindings)`.

## Model

| member | source | states |
|---|---|---|
| `DeferredDicts.Get` | later/__main__.py:18-24 | a key in the local map gives the local value; otherwise a key in the parent map gives the parent value; the lookup fails, naming the key, exactly when neither map has the key |
| `DeferredDicts.GetIsMergedLookup` | later/__main__.py:8-24 | for every key, the lookup agrees with the single map made by laying the local map over the parent map, on success and on failure |
| `DeferredDicts.LocalShadowsParent` | later/__main__.py:22-23 | a local key gives the local value whatever the parent map holds, even when the parent has the same key |
| `DeferredDicts.EmptyLocalIsParent` | later/__main__.py:18-24 | with no local variables, the view behaves exactly like the parent map, including which keys fail |
| `Weekdays.WeekdayMapIsBijection` | later/__main__.py:27-35 | the table maps exactly the seven lower-case names one-to-one onto 0..6, monday = 0 and sunday = 6, and the list of names is its inverse |
| `Weekdays.WeekdayNumber` | later/__main__.py:79 | the lookup succeeds exactly for the seven names, and the number it gives names the same day back; any other name fails with `UnknownWeekday` |
| `Weekdays.Weekday` | later/__main__.py:76 | `date.weekday()` lies in 0..6, and day 1 (0001-01-01) falls on weekday 0 modulo 7 |
| `Weekdays.FirstDay` | later/__main__.py:73-76 | the computed first day is a Monday, and the anchor day `today + 7*week_offset` lies in the 7 days starting there |
| `Weekdays.TaskDate` | later/__main__.py:79-82 | the task date has the requested weekday and lies between the week's Monday and the following Sunday; an unknown weekday name fails |
| `Weekdays.WeekdayPeriodic` | later/__main__.py:73 | adding whole weeks to a day keeps its weekday |
| `Weekdays.FirstDayUnique` | later/__main__.py:73-76 | the computed Monday is the only Monday whose week contains the anchor day |
| `Weekdays.FirstDayShift` | later/__main__.py:73-76 | shifting the offset by k weeks moves the Monday by exactly 7k days |
| `Weekdays.TaskDateShift` | later/__main__.py:73-82 | shifting the offset by k weeks moves the task date by exactly 7k days, for every known weekday |
| `Weekdays.TaskDateNextWeek` | later/__main__.py:73-82 | raising the offset by 1 moves the task date exactly 7 days later |
| `Weekdays.TaskDateClosedForm` | later/__main__.py:70-82 | task date = today + 7*offset + number(weekday) - weekday(today) |
| `Weekdays.CurrentWeek` | later/__main__.py:70-82 | at offset 0, the week contains today and so does the task date's week; Monday at offsets 0, 1 and -1 is today - weekday(today), then 7 days later, then 7 days earlier |
| `Weekdays.SameWeekSameDate` | later/__main__.py:70-82 | two "today"s in the same week give every task the same date, for every offset |
| `WeekdayTasks.NewTask` | later/__main__.py:44-62 | construction fails exactly when the document has no `variables`. On success, start and end time come from the descriptor or default to "00:00"; the variable view has the descriptor's variables (or an empty map) as primary and the document's as fallback; weekday, offset and locale are stored as given, with the weekday not checked |
| `WeekdayTasks.TaskVariableLookup` | later/__main__.py:55-59 | a constructed task's variable resolves to the descriptor's value, else to the document's value, else fails naming the key |
| `WeekdayTasks.CapitalizeFirst` | later/__main__.py:91 | the result is the upper-case form of the first character followed by the unchanged tail; a character that is already upper case leaves the text unchanged; an empty text fails |
| `WeekdayTasks.FormattedDate` | later/__main__.py:64-93 | an unknown weekday fails with `UnknownWeekday` before the locale is used; otherwise a missing locale fails with `LocaleUnavailable`; otherwise the result is the capitalised localised text of the task date |
| `WeekdayTasks.FormattedDateSucceeds` | later/__main__.py:79-93 | for a known weekday and a locale that gives non-empty text for the task's day, the date text exists; it formats a day of the requested weekday inside the requested week and keeps the localised text after its first character |
| `WeekdayTasks.FormattedDateNextWeek` | later/__main__.py:70-82 | the date text with offset + 1 equals the date text read 7 days later |
| `WeekdayTasks.FormattedDateSameWeek` | later/__main__.py:64-93 | the date text is not memoised, but any two days of the same week give the same text |
| `Render.BuildTasks` | later/__main__.py:117-120 | exactly one task per entry, in entry order, each with that entry's weekday name and the call's offset and locale, each equal to constructing that entry alone; the list fails exactly when it is non-empty and the document lacks `variables` |
| `Render.PrepareBindings` | later/__main__.py:114-122 | a missing `week_tasks` fails first; then a missing `variables` fails; otherwise the template sees the document's shared variables and one task per entry, in order |
| `Render.RenderTemplate` | later/__main__.py:96-131 | render is all-or-nothing: the two missing-field failures are returned without consulting the engine, and otherwise the engine's own result is returned unchanged |
| `Render.MissingWeekTasksFailsBeforeTemplate` | later/__main__.py:114 | without `week_tasks`, every template and every engine give the same `MissingField("week_tasks")` failure |
| `Render.BoundTaskLookup` | later/__main__.py:114-122 | every task handed to the template carries its entry's weekday, and resolves variables against its descriptor first and the shared variables second |
| `Render.RenderDefaults` | later/__main__.py:96-120 | with `render_template`'s default locale and offset 0, every task the template sees carries that locale and offset 0, and a known weekday's date lies in the week that holds today |

## Left out

- Reading the clock (`datetime.date.today()`, line 70): `today` is a parameter.
- Locale handling and date formatting (lines 84-88). `locale.setlocale` changes process-wide state, and the names `strftime` prints depend on the locales installed on the host. Both become the `localize` parameter. The model does not convert day numbers into year, month and day.
- The global locale mutation and the concurrency hazard it causes are not modelled. The model passes the locale explicitly, so it has no shared state.
- `str.upper` (line 91) becomes the `upper` parameter. Unicode case mapping is not modelled.
- Jinja2 compilation and rendering (lines 125-131) become the `engine` parameter. The `len` binding is not part of `Bindings`.
- Whatever the template does with a failed variable lookup is up to the engine and is not modelled.
- Everything in the `__main__` block (lines 134-168) is not modelled: YAML parsing, file reading, argparse (including its default locale `es_ES.UTF-8`) and printing.
- Python `date` range limits (`OverflowError` outside years 1..9999) are not modelled; day numbers are unbounded integers.
- Dynamic YAML values are not modelled. Descriptors and variables are typed records and maps. So the model does not cover:
  - a descriptor that is not a mapping;
  - a `variables` value that is not a mapping;
  - `start_time`/`end_time` values that are not strings;
  - a key present with value `null`, which Python's `get` returns as `None`.
- Python default arguments are not modelled; callers pass every argument. `DefaultRenderLocale` (`en_US.UTF-8`) and offset 0 are used in `Render.RenderDefaults`. `DefaultTaskLocale` (`en_US`) only records `WeekdayTask`'s default. `render_template` always passes its own locale, so that default is never reached from the core.
- `week_tasks` is a sequence of pairs. A Python dict cannot hold a key twice; the model keeps whatever entries it is given, in order.
- The idempotence of rendering on the same day holds by construction, since every operation is a function of its inputs. There is no separate lemma for it.
- `EmptyDateText` cannot happen with the real `strftime` format, which always contains ", ". It is modelled only because `localize` is arbitrary.

Facts about the code that the model keeps:

- The weekday name is not checked when a task is built (`WeekdayTask.__init__`, later/__main__.py:44-62); only the date text fails on an unknown name (later/__main__.py:79).
- A document with an empty `week_tasks` and no `variables` still fails, at `data["variables"]` (later/__main__.py:122).
- A missing document key raises Python's `KeyError`; the model calls this `MissingField`.
