# flask_reportable_error, modelled in Dafny

`flask_reportable_error` lets a Flask application declare exceptions whose
message may be shown to clients. It has three parts:

- `ReportableErrorMixin`, a class that exceptions mix in. An instance carries a
  `report()` payload and an optional `status_code` attribute.
- `init(app)`, which registers one error handler for the mixin on the
  application and binds `ReportableErrorMixin.app` to it. Each time the handler
  runs it logs one entry and returns `(report, status, {})`.
- `reportable(base)`, a memoized factory. It returns a class derived from
  `base` and from the mixin, and returns the same class again for the same base.

The implementation module is not part of this model. The model follows the
behaviour that the test suite `src/test.py` asserts, including its stub host
application. The Dafny modules are:

- `Classes` (`classes.dfy`). Class objects are numbered ids with an explicit
  parent relation, whose links always go to a smaller id. `issubclass` is the
  reflexive-transitive closure of that relation. The factory is a pure `Registry` value (`Registry.Reportable`, and
  `ReportableAll` for a run of calls) together with the stateful
  `ClassRegistry` class, whose `Reportable` method is proved against it.
- `Errors` (`errors.dfy`). This holds the error object, a class because
  `status_code` is set on it in place. It also holds the pure resolution rules:
  default status code, log level, status priority and the response triple.
- `Host` (`host.dfy`). The stub `Application`: its `handlers`, `config` and
  `logged` fields, `errorhandler(exc)(callback)` and `logger.log`.
- `ReportableErrorLib` (`reportable_error.dfy`). The mixin's `app` binding,
  `init`, the handler, and the call of a stored handler.
- `Scenarios` (`scenarios.dfy`). Each test case as a method on fresh objects.
  Its postcondition is that test's assertions.
- `Wrappers` (`wrappers.dfy`). `Option`, used for the unset `status_code`.

## Model

| member | source | states |
|---|---|---|
| `Classes.Registry.Reportable` | src/test.py:110-115 | after a call, the returned class is what the cache holds for the base, and every earlier cache entry is kept |
| `Classes.ReportableHitOrMiss` | src/test.py:110-115 | a hit returns the cached class and changes nothing; a miss returns the next id, which no class has yet, records exactly the base and the mixin as its parents, and caches it |
| `Classes.ReportableKeepsValid` | src/test.py:99-115 | a call on a class keeps the registry invariant and keeps every existing class with its parents |
| `Classes.Registry.IsSubclass` | src/test.py:101-103 | `issubclass` is reflexive, and a proper subclass is a known class whose id is larger than its ancestor's |
| `Classes.Registry.Declare` | src/test.py:100-103 | stands for the `class` statement by which a class such as `ValueError` comes to exist: the next unused id with the named bases, or `object` alone when none is named; the cache is left alone |
| `Classes.DeclaredBases` | src/test.py:100-103 | a declared class always has at least one parent: the named bases, or `object` when none is named |
| `Classes.DeclareKeepsValid` | src/test.py:100-103 | declaring a class over known bases keeps the invariant and every existing class and cache entry, and the new id was unused |
| `Classes.DeclaredIsSubclass` | src/test.py:100-103 | a declared class is a subclass of each of its bases, and of `object` when none is named |
| `Classes.ClassRegistry.DeclareClass` | src/test.py:100-103 | updates the fields exactly as `Registry.Declare` says, so `reportable` can then be called on the new class |
| `Classes.ReportableAll` | src/test.py:110-113 | a run of factory calls returns one class per call and keeps every cache entry |
| `Classes.ReportableAllKeepsValid` | src/test.py:110-113 | a run of calls on classes keeps the registry invariant |
| `Classes.CacheInjective` | src/test.py:113-115 | two cached bases share a generated class if and only if they are the same base |
| `Classes.ReportableAllCached` | src/test.py:110-113 | after a run of calls, each call's result is what the cache holds for that call's base |
| `Classes.FirstCached` | src/test.py:110-111 | the first call's result in a run is still cached under its base when the run ends |
| `Classes.Memoized` | src/test.py:110-115 | in any run of calls, two results are the identical class exactly when the two bases are equal (`assertIs` and `assertNotEqual`) |
| `Classes.ReportableIdempotent` | src/test.py:111-112 | a second call with the same base returns the same class and leaves the registry unchanged |
| `Classes.SubclassTransitive` | src/test.py:101-103 | `issubclass` is transitive |
| `Classes.SubclassKept` | src/test.py:99-103 | creating classes never removes an existing subclass relation |
| `Classes.CachedIsSubclass` | src/test.py:99-103 | every cached class is a subclass of its base and of `ReportableErrorMixin` |
| `Classes.ReportableIsSubclass` | src/test.py:99-103 | `reportable(base)` is a subclass of the mixin, of `base`, and of every ancestor of `base` |
| `Classes.Initial` | src/test.py:100-113 | the initial registry satisfies the invariant, has an empty cache, and has `ValueError` and `AttributeError` below `Exception` |
| `Classes.ClassRegistry.constructor` | src/test.py:100-113 | a fresh registry holds the initial class universe and an empty cache |
| `Classes.ClassRegistry.Reportable` | src/test.py:110-115 | updates the fields exactly as `Registry.Reportable` says: a hit returns the stored id and changes nothing; a miss returns the next id, caches it and records its parents |
| `Errors.ReportableError.constructor` | src/test.py:43-44 | a new error keeps the given class, type name and payload, and its `status_code` starts unset; an instance of the mixin itself is named `ReportableErrorMixin` |
| `Errors.ReportableError.Report` | src/test.py:94-108 | `report()` returns the payload the error was made with, unchanged |
| `Errors.Setting` | src/test.py:61-63 | a setting is read from the `REPORTABLE_ERROR` section when present there, and otherwise falls back to the default |
| `Errors.DefaultStatusCode` | src/test.py:42-79 | the default status is `DEFAULT_STATUS_CODE` from the section when configured, else 500 |
| `Errors.LogLevel` | src/test.py:50-68 | the log level is `LOGLEVEL` from the section when configured, else DEBUG |
| `Errors.StatusCode` | src/test.py:81-88 | an explicit `status_code` is returned; an unset one falls back to the default status |
| `Errors.ErrorResponse` | src/test.py:45-48 | the response carries the unchanged payload, the resolved status and empty headers |
| `Errors.StatusCodePriority` | src/test.py:42-88 | the status in full priority order: the error's own code, else the configured default, else 500 |
| `Errors.ExplicitStatusIgnoresConfig` | src/test.py:81-88 | an explicit status code is the response's status for every payload and under every configuration |
| `Errors.SettingsIndependent` | src/test.py:58-79 | setting `LOGLEVEL` does not change the status, and setting `DEFAULT_STATUS_CODE` does not change the log level |
| `Errors.OtherSectionsIgnored` | src/test.py:61-63 | configuration sections other than `REPORTABLE_ERROR` change neither the status nor the log level |
| `Host.Callback.Name` | src/test.py:37-38 | the registered handler's `__name__` is `reportable_error_handler` |
| `Host.Application.constructor` | src/test.py:15-21 | a new application has no handlers, an empty config and an empty log |
| `Host.Application.ErrorHandler` | src/test.py:23-26 | `errorhandler(exc)(callback)` stores the callback under `exc`, replacing any earlier one, and changes nothing else |
| `Host.Application.Log` | src/test.py:19-20 | `logger.log` appends exactly its arguments to `logged` and changes nothing else |
| `Host.Application.SetConfigSection` | src/test.py:61-63 | `config[section] = values` replaces that section and changes nothing else |
| `ReportableErrorLib.MixinClass.constructor` | src/test.py:39-40 | before any `init`, the mixin's `app` binding holds no application (the tests do not show this state; see Left out) |
| `ReportableErrorLib.Init` | src/test.py:28-40 | `init(app)` adds exactly one handler under `ReportableErrorMixin`, a closure over `app`; it binds the mixin's `app` to `app`; config and log are unchanged |
| `ReportableErrorLib.HandleError` | src/test.py:42-88 | the handler appends exactly one entry `(level, '(%s) %s', typeName, exc)` at the configured level, and keeps the rest of the log, the handlers and the config; it returns `(payload, status, {})` |
| `ReportableErrorLib.Invoke` | src/test.py:32-56 | calling a stored handler runs the handler on the application it closes over |
| `Scenarios.SetUp` | src/test.py:28-34 | after `setUp` the handler table is exactly `{ReportableErrorMixin: handler}`, the handler closes over the app and the mixin is bound to it |
| `Scenarios.RegisterApplication` | src/test.py:36-40 | one handler named `reportable_error_handler`, and `ReportableErrorMixin.app` is the app |
| `Scenarios.HandleError500` | src/test.py:42-48 | with empty config and no own status the handler returns `(s, 500, {})` |
| `Scenarios.LogError` | src/test.py:50-56 | the log is exactly `[(DEBUG, '(%s) %s', 'ReportableErrorMixin', exc)]` |
| `Scenarios.LogDeeper` | src/test.py:58-68 | with `LOGLEVEL = ERROR` the log is exactly `[(ERROR, '(%s) %s', 'ReportableErrorMixin', exc)]` |
| `Scenarios.HandleError400` | src/test.py:70-79 | with `DEFAULT_STATUS_CODE = 400` the handler returns `(s, 400, {})` |
| `Scenarios.HandleOwnStatus` | src/test.py:81-88 | with `exc.status_code = 404` the handler returns `(s, 404, {})`, whether or not a default is configured |
| `Scenarios.ReportableErrorReport` | src/test.py:94-97 | `report()` returns the constructor payload |
| `Scenarios.FactoryReturnsReportableError` | src/test.py:99-103 | `reportable(ValueError)` is a subclass of the mixin, of `ValueError` and of `Exception` |
| `Scenarios.FactoryOnDeclaredClass` | src/test.py:99-103 | for a user-declared `AppError(Exception)`, `reportable(AppError)` is a subclass of the mixin, of `AppError` and of `Exception` |
| `Scenarios.FactoryReportError` | src/test.py:105-108 | an instance of `reportable(ValueError)` reports its constructor payload |
| `Scenarios.FactoryMemoized` | src/test.py:110-115 | two calls with `ValueError` return the identical class, and a call with `AttributeError` returns a different one |

## Left out

- Flask itself is not modelled: request dispatch, and the choice of handler by walking an exception's class hierarchy. The handler is called directly, as the tests call it.
- Python's `logging` module is not modelled. DEBUG and ERROR are the integers 10 and 40. A log entry has the fixed four-field shape the handler writes, instead of an arbitrary argument tuple.
- `errorhandler(exc)` returns a registration closure. The model merges it with that closure's call into one method, `Application.ErrorHandler(exc, callback)`.
- `Callback` has one constructor, the library's handler closing over its application. `Application.ErrorHandler` can therefore store only that handler, while the stub stores any callable.
- `ReportableErrorLib.MixinClass.constructor`: the `app` binding before the first `init` is not shown by the tests; the model starts it at no application (`null`).
- An error's class is not required to be a subclass of `ReportableErrorMixin`: any error object handed to the handler is logged and reported. The misuse path, where an object without `report()` reaches the handler, is not modelled.
- The handler's `__name__` is the constant `HANDLER_NAME` on `Callback`. There is no other introspection.
- Classes are numbered ids with a parent relation. The model has no dynamic `type(...)` creation and no method resolution order: the parents of a generated class are a set, so which of the two bases takes precedence is not modelled.
- The name of a generated class is not modelled, since the tests do not show it. The type name an error logs is given when the error is made, and is not derived from its class; only for the mixin itself is it fixed to `ReportableErrorMixin`.
- `ReportableErrorMixin`'s own bases are not modelled, since the tests do not show them. The model gives it `object` as its only parent.
- `reportable(ReportableErrorMixin)` would name the mixin twice among the bases. The model's set of parents just collapses to `{ReportableErrorMixin}`; the error Python raises for a duplicate base is not modelled.
- Payloads are strings, the only kind the tests use. Configuration values are integers.
- There is no concurrency: the process-wide cache and the app binding are explicit objects passed to the operations that use them.
- The `unittest` harness is not modelled. Each test case is a method in `Scenarios` that builds fresh objects.
- The `flask_reportable_error` implementation module is not part of this model. Only what the tests assert about it is modelled.
