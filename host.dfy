/**
 * The stub host application of the test suite: a table of error handlers
 * filled through `errorhandler(exc)(callback)`, a configuration mapping, and
 * a logger whose `log(*args)` appends its arguments to `logged`.
 */
module Host {
  import opened Classes
  import opened Errors

  /** The arguments of one `logger.log(level, template, subject, exc)` call. */
  datatype LogEntry = LogEntry(level: int, template: string, subject: string, exc: ReportableError)

  /** The `__name__` of the handler the library registers. */
  const HANDLER_NAME: string := "reportable_error_handler"

  /**
   * A callable stored in `handlers`. The only one in this model is the
   * handler the library registers, a closure over the application it was
   * registered on.
   */
  datatype Callback = ReportableErrorHandler(app: Application) {
    function Name(): (n: string)
      ensures n == "reportable_error_handler"
    {
      HANDLER_NAME
    }
  }

  class Application {
    var handlers: map<ClassId, Callback>
    var config: Config
    var logged: seq<LogEntry>

    constructor ()
      ensures handlers == map[] && config == map[] && logged == []
    {
      handlers, config, logged := map[], map[], [];
    }

    /** `errorhandler(exc)(callback)`: store `callback` under `exc`, replacing any earlier one. */
    method ErrorHandler(exc: ClassId, callback: Callback)
      modifies this
      ensures handlers == old(handlers)[exc := callback]
      ensures config == old(config) && logged == old(logged)
    {
      handlers := handlers[exc := callback];
    }

    /** `logger.log(*args)`: append the arguments to `logged`. */
    method Log(entry: LogEntry)
      modifies this
      ensures logged == old(logged) + [entry]
      ensures handlers == old(handlers) && config == old(config)
    {
      logged := logged + [entry];
    }

    /** `config[section] = values`. */
    method SetConfigSection(section: string, values: map<string, int>)
      modifies this
      ensures config == old(config)[section := values]
      ensures handlers == old(handlers) && logged == old(logged)
    {
      config := config[section := values];
    }
  }
}
