/** The ways a render of the weekly planner can fail. No error is caught inside the
    planner: each one aborts the whole render and reaches the caller unchanged. */
module Errors {

  datatype Error =
      /** A required key is missing from the top-level document (a Python `KeyError`
          raised by `data["week_tasks"]` or `data["variables"]` in `render_template`,
          or by `parent_data["variables"]` in `WeekdayTask.__init__`). */
      MissingField(field: string)
      /** A task's weekday is not one of the seven lower-case English names
          (a `KeyError` raised by the weekday table). */
    | UnknownWeekday(name: string)
      /** The host does not provide the requested locale (`locale.Error`). */
    | LocaleUnavailable(locale: string)
      /** The localised date text was empty, so its first character does not exist
          (an `IndexError`). */
    | EmptyDateText
      /** Any failure raised by the template engine, passed through unchanged. */
    | TemplateError(message: string)
}
