/**
 * The library's entry points: `init(app)`, which registers the error handler
 * on an application and binds `ReportableErrorMixin.app`, and the handler
 * itself, which logs once and answers `(report, status, {})`.
 */
module ReportableErrorLib {
  import opened Classes
  import opened Errors
  import opened Host

  /** The class object `ReportableErrorMixin`, with its process-wide `app` attribute. */
  class MixinClass {
    var app: Application?

    constructor ()
      ensures app == null
    {
      app := null;
    }
  }

  /** `init(app)`: register the handler under `ReportableErrorMixin` and bind the mixin to `app`. */
  method Init(mixin: MixinClass, app: Application)
    modifies mixin, app
    ensures mixin.app == app
    ensures app.handlers == old(app.handlers)[MIXIN := ReportableErrorHandler(app)]
    ensures app.config == old(app.config) && app.logged == old(app.logged)
  {
    app.ErrorHandler(MIXIN, ReportableErrorHandler(app));
    mixin.app := app;
  }

  /**
   * The body of the registered handler, run on `app`: one log entry at the
   * configured level naming the error's class, then the response.
   */
  method HandleError(app: Application, exc: ReportableError) returns (r: Response)
    modifies app
    ensures r == ErrorResponse(exc.payload, exc.statusCode, old(app.config))
    ensures app.logged == old(app.logged) + [LogEntry(LogLevel(old(app.config)), LOG_TEMPLATE, exc.typeName, exc)]
    ensures app.handlers == old(app.handlers) && app.config == old(app.config)
  {
    app.Log(LogEntry(LogLevel(app.config), LOG_TEMPLATE, exc.typeName, exc));
    r := Response(exc.Report(), StatusCode(exc.statusCode, app.config), map[]);
  }

  /** Call a stored handler on `exc`. */
  method Invoke(handler: Callback, exc: ReportableError) returns (r: Response)
    modifies handler.app
    ensures r == ErrorResponse(exc.payload, exc.statusCode, old(handler.app.config))
    ensures handler.app.logged ==
      old(handler.app.logged) + [LogEntry(LogLevel(old(handler.app.config)), LOG_TEMPLATE, exc.typeName, exc)]
    ensures handler.app.handlers == old(handler.app.handlers)
    ensures handler.app.config == old(handler.app.config)
  {
    match handler
    case ReportableErrorHandler(app) =>
      r := HandleError(app, exc);
  }
}
