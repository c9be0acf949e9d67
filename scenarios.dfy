/**
 * The cases of the test suite, each run on fresh objects: a new application
 * with the library initialised on it (`setUp`), or a new class registry.
 */
module Scenarios {
  import opened Wrappers
  import opened Classes
  import opened Errors
  import opened Host
  import opened ReportableErrorLib

  /** `setUp`: a fresh application with the handler registered on it, and that handler. */
  method SetUp() returns (mixin: MixinClass, app: Application, handler: Callback)
    ensures fresh(mixin) && fresh(app)
    ensures app.handlers == map[MIXIN := handler] && handler == ReportableErrorHandler(app)
    ensures app.config == map[] && app.logged == [] && mixin.app == app
  {
    mixin := new MixinClass();
    app := new Application();
    Init(mixin, app);
    handler := app.handlers[MIXIN];
  }

  /** `test_register_application`: one handler, with the expected name, and the mixin bound to the app. */
  method RegisterApplication() returns (handlerCount: nat, name: string, bound: bool)
    ensures handlerCount == 1 && name == "reportable_error_handler" && bound
  {
    var mixin, app, handler := SetUp();
    handlerCount := |app.handlers|;
    name := handler.Name();
    bound := mixin.app == app;
  }

  /** `test_handle_error_500`: no configuration and no own status give 500. */
  method HandleError500(s: string) returns (r: Response)
    ensures r == Response(s, 500, map[])
  {
    var mixin, app, handler := SetUp();
    var exc := new ReportableError(MIXIN, MIXIN_NAME, s);
    r := Invoke(handler, exc);
  }

  /** `test_log_error`: the single log entry at DEBUG. */
  method LogError(s: string) returns (logged: seq<LogEntry>, exc: ReportableError)
    ensures logged == [LogEntry(DEBUG, "(%s) %s", "ReportableErrorMixin", exc)]
  {
    var mixin, app, handler := SetUp();
    exc := new ReportableError(MIXIN, MIXIN_NAME, s);
    var _ := Invoke(handler, exc);
    logged := app.logged;
  }

  /** `test_log_deeper`: a configured LOGLEVEL is the level of the single log entry. */
  method LogDeeper(s: string) returns (logged: seq<LogEntry>, exc: ReportableError)
    ensures logged == [LogEntry(ERROR, "(%s) %s", "ReportableErrorMixin", exc)]
  {
    var mixin, app, handler := SetUp();
    app.SetConfigSection("REPORTABLE_ERROR", map["LOGLEVEL" := ERROR]);
    exc := new ReportableError(MIXIN, MIXIN_NAME, s);
    var _ := Invoke(handler, exc);
    logged := app.logged;
  }

  /** `test_handle_error_400`: a configured DEFAULT_STATUS_CODE replaces 500. */
  method HandleError400(s: string) returns (r: Response)
    ensures r == Response(s, 400, map[])
  {
    var mixin, app, handler := SetUp();
    app.SetConfigSection("REPORTABLE_ERROR", map["DEFAULT_STATUS_CODE" := 400]);
    var exc := new ReportableError(MIXIN, MIXIN_NAME, s);
    r := Invoke(handler, exc);
  }

  /** `test_handle_own_status`, also with a configured default that the own status overrides. */
  method HandleOwnStatus(s: string, configuredDefault: Option<int>) returns (r: Response)
    ensures r == Response(s, 404, map[])
  {
    var mixin, app, handler := SetUp();
    if configuredDefault.Some? {
      app.SetConfigSection("REPORTABLE_ERROR", map["DEFAULT_STATUS_CODE" := configuredDefault.value]);
    }
    var exc := new ReportableError(MIXIN, MIXIN_NAME, s);
    exc.statusCode := Some(404);
    r := Invoke(handler, exc);
  }

  /** `test_reportable_error_report`. */
  method ReportableErrorReport(s: string) returns (report: string)
    ensures report == s
  {
    var exc := new ReportableError(MIXIN, MIXIN_NAME, s);
    report := exc.Report();
  }

  /**
   * `test_reportable_factory_return_reportable_error`: `reportable(ValueError)`
   * is a subclass of the mixin, of `ValueError`, and of `Exception`.
   */
  method FactoryReturnsReportableError() returns (ofMixin: bool, ofBase: bool, ofAncestor: bool)
    ensures ofMixin && ofBase && ofAncestor
  {
    var registry := new ClassRegistry();
    ghost var before := registry.State();
    var c := registry.Reportable(VALUE_ERROR);
    ReportableIsSubclass(before, VALUE_ERROR, EXCEPTION);
    ofMixin := registry.State().IsSubclass(c, MIXIN);
    ofBase := registry.State().IsSubclass(c, VALUE_ERROR);
    ofAncestor := registry.State().IsSubclass(c, EXCEPTION);
  }

  /** The same test on a user-defined error class `class AppError(Exception)`. */
  method FactoryOnDeclaredClass() returns (ofMixin: bool, ofBase: bool, ofException: bool)
    ensures ofMixin && ofBase && ofException
  {
    var registry := new ClassRegistry();
    ghost var r0 := registry.State();
    var appError := registry.DeclareClass({EXCEPTION});
    DeclareKeepsValid(r0, {EXCEPTION});
    ghost var before := registry.State();
    var c := registry.Reportable(appError);
    ReportableIsSubclass(before, appError, EXCEPTION);
    ofMixin := registry.State().IsSubclass(c, MIXIN);
    ofBase := registry.State().IsSubclass(c, appError);
    ofException := registry.State().IsSubclass(c, EXCEPTION);
  }

  /** `test_reportable_factory_response_report_error`, for any name the new class carries. */
  method FactoryReportError(s: string, name: string) returns (report: string)
    ensures report == s
  {
    var registry := new ClassRegistry();
    var c := registry.Reportable(VALUE_ERROR);
    var exc := new ReportableError(c, name, s);
    report := exc.Report();
  }

  /** `test_reportable_factory_response_be_memoized`. */
  method FactoryMemoized() returns (same: bool, distinct: bool)
    ensures same && distinct
  {
    var registry := new ClassRegistry();
    var exc1 := registry.Reportable(VALUE_ERROR);
    var exc2 := registry.Reportable(VALUE_ERROR);
    var exc3 := registry.Reportable(ATTRIBUTE_ERROR);
    CacheInjective(registry.State(), VALUE_ERROR, ATTRIBUTE_ERROR);
    same := exc1 == exc2;
    distinct := exc1 != exc3;
  }
}
