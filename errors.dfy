/**
 * A reportable error and the pure rules the handler applies to it: which
 * status code and which log level it gets from the application's
 * configuration, and the `(report, status, headers)` response it produces.
 */
module Errors {
  import opened Wrappers
  import opened Classes

  /** Application configuration: section name to a mapping of numeric settings. */
  type Config = map<string, map<string, int>>

  /** The configuration section this library reads. */
  const SECTION: string := "REPORTABLE_ERROR"
  const DEFAULT_STATUS_CODE: string := "DEFAULT_STATUS_CODE"
  const LOGLEVEL: string := "LOGLEVEL"

  /** The status code used when neither the error nor the configuration gives one. */
  const BUILTIN_STATUS_CODE: int := 500

  // The two `logging` levels the tests use, with the values the `logging` module gives them.
  const DEBUG: int := 10
  const ERROR: int := 40

  /** The message template of every log entry the handler writes. */
  const LOG_TEMPLATE: string := "(%s) %s"

  /**
   * An instance of `ReportableErrorMixin` or of a class made by `reportable`:
   * its class, that class's name (`ReportableErrorMixin` for the mixin itself),
   * the payload given at construction and the `status_code` attribute, which
   * callers may set after construction.
   */
  class ReportableError {
    const cls: ClassId
    const typeName: string
    const payload: string
    var statusCode: Option<int>

    constructor (cls: ClassId, typeName: string, payload: string)
      requires cls == MIXIN ==> typeName == MIXIN_NAME
      ensures this.cls == cls && this.typeName == typeName && this.payload == payload
      ensures statusCode == None
    {
      this.cls, this.typeName, this.payload := cls, typeName, payload;
      statusCode := None;
    }

    /** `report()`: the payload the error was made with. */
    function Report(): (r: string)
      ensures r == payload
    {
      payload
    }
  }

  /** The handler's result: the body, the HTTP status and the extra headers. */
  datatype Response = Response(report: string, statusCode: int, headers: map<string, string>)

  /** True when the library's configuration section holds `key`. */
  predicate Configured(config: Config, key: string) {
    SECTION in config && key in config[SECTION]
  }

  /** The setting `key` of the library's section, or `fallback` when it is absent. */
  function Setting(config: Config, key: string, fallback: int): (v: int)
    ensures Configured(config, key) ==> v == config[SECTION][key]
    ensures !Configured(config, key) ==> v == fallback
  {
    if SECTION in config && key in config[SECTION] then config[SECTION][key] else fallback
  }

  /** The status code for an error that does not carry its own. */
  function DefaultStatusCode(config: Config): (code: int)
    ensures Configured(config, DEFAULT_STATUS_CODE) ==> code == config[SECTION][DEFAULT_STATUS_CODE]
    ensures !Configured(config, DEFAULT_STATUS_CODE) ==> code == BUILTIN_STATUS_CODE
  {
    Setting(config, DEFAULT_STATUS_CODE, BUILTIN_STATUS_CODE)
  }

  /** The level the handler logs at. */
  function LogLevel(config: Config): (level: int)
    ensures Configured(config, LOGLEVEL) ==> level == config[SECTION][LOGLEVEL]
    ensures !Configured(config, LOGLEVEL) ==> level == DEBUG
  {
    Setting(config, LOGLEVEL, DEBUG)
  }

  /** The status code of an error whose `status_code` attribute is `own`. */
  function StatusCode(own: Option<int>, config: Config): (code: int)
    ensures own.Some? ==> code == own.value
    ensures own.None? ==> code == DefaultStatusCode(config)
  {
    own.GetOr(DefaultStatusCode(config))
  }

  /** The response for an error with payload `payload` and `status_code` attribute `own`. */
  function ErrorResponse(payload: string, own: Option<int>, config: Config): (r: Response)
    ensures r.report == payload && r.headers == map[]
    ensures r.statusCode == StatusCode(own, config)
  {
    Response(payload, StatusCode(own, config), map[])
  }

  /**
   * The status code in full priority order: the error's own code, else the
   * configured default, else 500.
   */
  lemma StatusCodePriority(own: Option<int>, config: Config)
    ensures StatusCode(own, config) ==
      if own.Some? then own.value
      else if Configured(config, DEFAULT_STATUS_CODE) then config[SECTION][DEFAULT_STATUS_CODE]
      else 500
  {
  }

  /** An explicitly set status code wins over any configuration. */
  lemma ExplicitStatusIgnoresConfig(payload: string, code: int, config1: Config, config2: Config)
    ensures ErrorResponse(payload, Some(code), config1).statusCode == code
    ensures StatusCode(Some(code), config1) == StatusCode(Some(code), config2)
  {
  }

  /** Setting the log level leaves the status code alone, and setting the default status leaves the log level alone. */
  lemma SettingsIndependent(own: Option<int>, config: Config, section: map<string, int>, v: int)
    ensures StatusCode(own, config[SECTION := section[LOGLEVEL := v]]) == StatusCode(own, config[SECTION := section])
    ensures LogLevel(config[SECTION := section[DEFAULT_STATUS_CODE := v]]) == LogLevel(config[SECTION := section])
  {
  }

  /** Settings in other sections of the configuration are never read. */
  lemma OtherSectionsIgnored(config: Config, other: string, values: map<string, int>)
    requires other != SECTION
    ensures DefaultStatusCode(config[other := values]) == DefaultStatusCode(config)
    ensures LogLevel(config[other := values]) == LogLevel(config)
  {
  }
}
