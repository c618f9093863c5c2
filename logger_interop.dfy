/** JSLoggerInterop.cs: the host-side logger. It gates each message on its
    configuration and, when enabled, calls the browser function
    `JsLogger.log<Level>` with the configuration, the message and the event id.
    Browser calls are recorded as `Invocation`s; `BrowserDispatch` says what
    the browser then writes. */
module LoggerInterop {
  import opened Wrappers
  import opened LogLevels
  import opened DotNetText
  import opened Console
  import ModuleExtensions
  import LoggerConfig
  import JsLogger

  /** One argument of a browser call: a string, or the configuration object
      (which the browser receives as a plain object). */
  datatype Arg = Text(text: string) | ConfigArg(config: JsLogger.LogConfig)

  /** One `InvokeVoidAsync(identifier, args...)` on the logger module. */
  datatype Invocation = Invocation(identifier: string, args: seq<Arg>)

  /** An exception as `LogError` sees it: its `Message` and its `ToString()`,
      which is library behaviour and so an opaque string here. */
  datatype Exception = Exception(message: Nullable<string>, rendered: string)

  /** `Environment.NewLine`, which `AppendLine` writes. */
  const NewLine := "\n"

  /** `BuildLogEventIdentifier(level, methodName)`: the method name followed by the
      .NET name of the level; None is rejected. */
  function BuildLogEventIdentifier(level: LogLevel, methodName: string): (r: Result<string, DotNetError>)
    ensures r.Err? <==> level == None
    ensures r.Err? ==> r.error == ArgumentOutOfRange("logLevel")
    ensures r.Ok? ==> |r.value| > |methodName| && r.value[..|methodName|] == methodName
  {
    match level
    case Trace => Ok(methodName + "Trace")
    case Debug => Ok(methodName + "Debug")
    case Information => Ok(methodName + "Information")
    case Warning => Ok(methodName + "Warning")
    case Error => Ok(methodName + "Error")
    case Critical => Ok(methodName + "Critical")
    case None => Err(ArgumentOutOfRange("logLevel"))
  }

  /** The identifier of a real level is the method followed by its .NET name. */
  lemma IdentifierUsesDotNetName(level: LogLevel, methodName: string)
    requires level != None
    ensures BuildLogEventIdentifier(level, methodName) == Ok(methodName + DotNetName(level))
  {
  }

  /** Different levels get different identifiers. */
  lemma BuildLogEventIdentifierInjective(a: LogLevel, b: LogLevel, methodName: string)
    requires a != None && b != None
    requires BuildLogEventIdentifier(a, methodName) == BuildLogEventIdentifier(b, methodName)
    ensures a == b
  {
    IdentifierUsesDotNetName(a, methodName);
    IdentifierUsesDotNetName(b, methodName);
    var x, y := methodName + DotNetName(a), methodName + DotNetName(b);
    assert x[|methodName|..] == DotNetName(a);
    assert y[|methodName|..] == DotNetName(b);
  }

  /** `GetJsInteropMethod()` inside `Log`: `JsLogger.log`. */
  const LogMethod := "JsLogger.log"

  lemma LogMethodIsModuleMethod()
    ensures ModuleExtensions.GetJsModuleMethod(ModuleExtensions.JsLogger, "Log") == Ok(LogMethod)
  {
    ModuleExtensions.GetJsModuleMethodExamples();
  }

  /** The call an enabled `Log(level, message, eventId)` makes. */
  function LogInvocation(config: JsLogger.LogConfig, level: LogLevel, message: string, eventId: string): Invocation
    requires level != None
  {
    Invocation(BuildLogEventIdentifier(level, LogMethod).value, [ConfigArg(config), Text(message), Text(eventId)])
  }

  /** What the browser writes for a call on the logger module: the entry
      points `logTrace` .. `logCritical` log at their level, `test` runs the
      self-test; the timestamp is the browser's clock. */
  function BrowserDispatch(call: Invocation, timestamp: string): seq<ConsoleCall> {
    match ModuleExtensions.ParseJsModuleMethod(call.identifier)
    case Null => []
    case Some(target) =>
      var (targetModule, name) := target;
      if targetModule != ModuleExtensions.JsLogger then []
      else if JsLogger.EntryPointLevel(name).Some? && |call.args| == 3
              && call.args[0].ConfigArg? && call.args[1].Text? && call.args[2].Text? then
        JsLogger.Present(JsLogger.CallEntryPoint(name, call.args[0].config, call.args[1].text,
                                                 call.args[2].text, timestamp))
      else if name == "test" && |call.args| == 2 && call.args[0].ConfigArg? && call.args[1].Text? then
        JsLogger.Test(Some(call.args[0].config), call.args[1].text, timestamp)
      else []
  }

  /** The .NET name of a real level, prefixed with `log`, is the browser entry
      point for that same level (`logWarning` logs at Warn). */
  lemma EntryPointOfLevel(level: LogLevel)
    requires level != None
    ensures JsLogger.EntryPointLevel("log" + DotNetName(level)) == Some(level)
  {
    match level
    case Trace => assert "log" + DotNetName(level) == "logTrace";
    case Debug => assert "log" + DotNetName(level) == "logDebug";
    case Information => assert "log" + DotNetName(level) == "logInformation";
    case Warning => assert "log" + DotNetName(level) == "logWarning";
    case Error => assert "log" + DotNetName(level) == "logError";
    case Critical => assert "log" + DotNetName(level) == "logCritical";
  }

  /** The identifier of a real level reads back as the logger module and the
      entry point `log<Level>`. */
  lemma ParseLogIdentifier(level: LogLevel)
    requires level != None
    ensures ModuleExtensions.ParseJsModuleMethod(LogMethod + DotNetName(level))
         == Some((ModuleExtensions.JsLogger, "log" + DotNetName(level)))
  {
    var name := "log" + DotNetName(level);
    assert LogMethod + DotNetName(level) == ModuleExtensions.ModuleName(ModuleExtensions.JsLogger) + "." + name;
    assert name[0] == 'l' && name == [name[0]] + name[1..];
    assert ModuleExtensions.ToJsonName(name) == Ok(name);
    assert ModuleExtensions.GetJsModuleMethod(ModuleExtensions.JsLogger, name) == Ok(LogMethod + DotNetName(level));
    ModuleExtensions.GetJsModuleMethodRoundTrip(ModuleExtensions.JsLogger, name);
  }

  /** The call an enabled host `Log` makes reaches the browser's `log` at the
      same level, with the same configuration, message and event id. */
  lemma LogInvocationReachesBrowser(config: JsLogger.LogConfig, level: LogLevel, message: string,
                                    eventId: string, timestamp: string)
    requires level != None
    ensures BrowserDispatch(LogInvocation(config, level, message, eventId), timestamp)
         == JsLogger.Present(JsLogger.Log(config, level, message, eventId, timestamp))
  {
    IdentifierUsesDotNetName(level, LogMethod);
    ParseLogIdentifier(level);
    EntryPointOfLevel(level);
  }

  /** The stack of scope states (`_scopes`): null until the first scope, and
      null again whenever the last scope is disposed. The top is the last element. */
  class ScopeStack {
    var stack: Nullable<seq<Nullable<string>>>

    predicate Valid()
      reads this
    {
      stack.Some? ==> |stack.value| > 0
    }

    constructor ()
      ensures stack == Null && Valid()
    {
      stack := Null;
    }

    /** `BeginScope`: `_scopes.Value ??= new Stack(); _scopes.Value.Push(state)`. */
    method Push(state: Nullable<string>)
      requires Valid()
      modifies this
      ensures Valid()
      ensures stack == Pushed(old(stack), state)
    {
      var s := if stack.Null? then [] else stack.value;
      stack := Some(s + [state]);
    }

    /** Disposing a scope: pop, and drop the stack once it is empty. Popping
        with no stack is a `NullReferenceException`. */
    method Pop() returns (o: Outcome<DotNetError>)
      requires Valid()
      modifies this
      ensures Valid()
      ensures old(stack).Null? ==> o == Fail(NullReference) && stack == old(stack)
      ensures old(stack).Some? ==> o == Pass && stack == Popped(old(stack)).value
    {
      if stack.Null? {
        return Fail(NullReference);
      }
      var s := stack.value[..|stack.value| - 1];
      if |s| == 0 {
        stack := Null;
      } else {
        stack := Some(s);
      }
      o := Pass;
    }
  }

  /** The stack after a push. */
  function Pushed(stack: Nullable<seq<Nullable<string>>>, state: Nullable<string>): (r: Nullable<seq<Nullable<string>>>)
    ensures r.Some? && |r.value| > 0 && r.value[|r.value| - 1] == state
  {
    Some((if stack.Null? then [] else stack.value) + [state])
  }

  /** The stack after a pop; none for a null stack. */
  function Popped(stack: Nullable<seq<Nullable<string>>>): (r: Nullable<Nullable<seq<Nullable<string>>>>)
    requires stack.Some? ==> |stack.value| > 0
    ensures r.Null? <==> stack.Null?
    ensures r.Some? && r.value.Some? ==> |r.value.value| > 0
  {
    if stack.Null? then Null
    else
      var s := stack.value[..|stack.value| - 1];
      Some(if |s| == 0 then Null else Some(s))
  }

  /** Scopes nest: disposing the scope just begun restores the stack as it was,
      null included. */
  lemma PopUndoesPush(stack: Nullable<seq<Nullable<string>>>, state: Nullable<string>)
    requires stack.Some? ==> |stack.value| > 0
    ensures Popped(Pushed(stack, state)) == Some(stack)
  {
    var s := if stack.Null? then [] else stack.value;
    assert (s + [state])[..|s|] == s;
  }

  /** `LogError(exception)`'s message: the exception's message and a newline
      unless the message is blank, then the exception's text and a newline when
      `detailed`. It is empty exactly when there is nothing to say. */
  function ErrorMessage(exception: Exception, detailed: bool): (text: string)
    ensures |text| == (if IsNullOrWhiteSpace(exception.message) then 0 else |exception.message.value| + 1)
                      + (if detailed then |exception.rendered| + 1 else 0)
    ensures !IsNullOrWhiteSpace(exception.message) ==>
              text[..|exception.message.value| + 1] == exception.message.value + NewLine
    ensures IsNullOrWhiteSpace(exception.message) && detailed ==> text == exception.rendered + NewLine
    ensures detailed ==> text[|text| - |exception.rendered| - 1..] == exception.rendered + NewLine
    ensures |text| == 0 <==> IsNullOrWhiteSpace(exception.message) && !detailed
  {
    (if IsNullOrWhiteSpace(exception.message) then "" else exception.message.value + NewLine)
      + (if detailed then exception.rendered + NewLine else "")
  }

  /** The `StringBuilder` steps of `LogError(exception)` build `ErrorMessage`. */
  method BuildErrorMessage(exception: Exception, detailed: bool) returns (text: string)
    ensures text == ErrorMessage(exception, detailed)
  {
    var sb := "";
    var formattedMessage := exception.message;
    if !IsNullOrWhiteSpace(formattedMessage) {
      sb := sb + formattedMessage.value + NewLine;
    }
    if detailed {
      sb := sb + exception.rendered + NewLine;
    }
    text := sb;
  }

  class JSLoggerInterop {
    var config: LoggerConfig.JSLoggerConfig
    var detailedErrors: bool
    /** The static `_scopes`, shared by every logger. */
    const scopes: ScopeStack
    /** The calls made on the browser module so far. */
    var invocations: seq<Invocation>

    predicate Valid()
      reads this, config, config.defaults, scopes
    {
      config.Valid() && scopes.Valid()
    }

    /** `new JSLoggerInterop(jsRuntime)`: a default configuration and detailed errors. */
    constructor (defaults: LoggerConfig.TemplateDefault, scopes: ScopeStack)
      requires defaults.Valid() && scopes.Valid()
      ensures Valid() && fresh(config)
      ensures config.defaults == defaults && config.category == LoggerConfig.DefaultCategory
      ensures config.template == defaults.value
      ensures config.minLevel == Information && config.maxLevel == Critical
      ensures detailedErrors && this.scopes == scopes && invocations == []
    {
      var created := LoggerConfig.JSLoggerConfig.Create(defaults, Null, Information, Critical, Null);
      config := created.value;
      detailedErrors := true;
      this.scopes := scopes;
      invocations := [];
    }

    /** `new JSLoggerInterop(jsRuntime, config)`: a null configuration is rejected. */
    static method WithConfig(defaults: LoggerConfig.TemplateDefault, scopes: ScopeStack,
                             config: LoggerConfig.JSLoggerConfig?) returns (r: Result<JSLoggerInterop, DotNetError>)
      requires defaults.Valid() && scopes.Valid()
      requires config != null ==> config.Valid()
      ensures r.Err? <==> config == null
      ensures r.Err? ==> r.error == ArgumentNull("config")
      ensures r.Ok? ==> fresh(r.value) && r.value.Valid() && r.value.config == config
      ensures r.Ok? ==> r.value.scopes == scopes && r.value.detailedErrors && r.value.invocations == []
    {
      var logger := new JSLoggerInterop(defaults, scopes);
      if config == null {
        return Err(ArgumentNull("config"));
      }
      var o := logger.SetConfig(config);
      r := Ok(logger);
    }

    /** `new JSLoggerInterop<T>(jsRuntime)`: the category is the type's name. */
    static method ForType(typeName: string, defaults: LoggerConfig.TemplateDefault, scopes: ScopeStack)
      returns (logger: JSLoggerInterop)
      requires defaults.Valid() && scopes.Valid()
      ensures fresh(logger) && fresh(logger.config) && logger.Valid() && logger.config.category == typeName
      ensures logger.config.defaults == defaults && logger.config.template == defaults.value
      ensures logger.config.minLevel == Information && logger.config.maxLevel == Critical
      ensures logger.detailedErrors && logger.scopes == scopes && logger.invocations == []
    {
      logger := new JSLoggerInterop(defaults, scopes);
      logger.config.category := typeName;
    }

    /** `new JSLoggerInterop<T>(jsRuntime, config)`: the caller's configuration
        object itself gets the type's name as its category. */
    static method ForTypeWithConfig(typeName: string, defaults: LoggerConfig.TemplateDefault, scopes: ScopeStack,
                                    config: LoggerConfig.JSLoggerConfig?) returns (r: Result<JSLoggerInterop, DotNetError>)
      requires defaults.Valid() && scopes.Valid()
      requires config != null ==> config.Valid()
      modifies config
      ensures r.Err? <==> config == null
      ensures r.Err? ==> r.error == ArgumentNull("config")
      ensures r.Ok? ==> fresh(r.value) && r.value.Valid() && r.value.config == config
      ensures config != null ==> config.category == typeName && config.template == old(config.template)
      ensures config != null ==> config.minLevel == old(config.minLevel) && config.maxLevel == old(config.maxLevel)
    {
      r := WithConfig(defaults, scopes, config);
      if r.Ok? {
        r.value.config.category := typeName;
      }
    }

    /** The `Config` setter: null is rejected and the old configuration kept. */
    method SetConfig(value: LoggerConfig.JSLoggerConfig?) returns (o: Outcome<DotNetError>)
      requires value != null ==> value.Valid()
      requires Valid()
      modifies this
      ensures Valid()
      ensures o.Fail? <==> value == null
      ensures o.Fail? ==> o == Fail(ArgumentNull("Config")) && config == old(config)
      ensures o.Pass? ==> config == value
      ensures detailedErrors == old(detailedErrors) && invocations == old(invocations)
    {
      if value == null {
        return Fail(ArgumentNull("Config"));
      }
      config := value;
      o := Pass;
    }

    /** `IsEnabled(logLevel)`: the configuration's gate, which admits exactly
        the levels the browser's `isEnabled` admits for the configuration sent. */
    predicate IsEnabled(level: LogLevel)
      reads this, config
      ensures IsEnabled(level) <==> JsLogger.IsEnabled(config.Snapshot(), level)
    {
      LoggerConfig.HostAndBrowserGatesAgree(config, level);
      config.IsEnabled(level)
    }

    /** The calls `Log(level, message, eventId)` makes: none for a disabled
        level, otherwise one call of `JsLogger.log<Level>`. */
    function LogEffect(level: LogLevel, message: string, eventId: string): (calls: seq<Invocation>)
      reads this, config
      ensures |calls| <= 1
      ensures |calls| == 1 <==> IsEnabled(level)
      ensures |calls| == 1 ==> calls[0].identifier == LogMethod + DotNetName(level)
      ensures |calls| == 1 ==> calls[0].args == [ConfigArg(config.Snapshot()), Text(message), Text(eventId)]
    {
      if IsEnabled(level) then
        IdentifierUsesDotNetName(level, LogMethod);
        [LogInvocation(config.Snapshot(), level, message, eventId)]
      else []
    }

    /** `Log(logLevel, message, eventId)`. A disabled level returns before any
        browser call, so None never reaches `BuildLogEventIdentifier`'s throw. */
    method Log(level: LogLevel, message: string, eventId: string)
      modifies this
      ensures config == old(config) && detailedErrors == old(detailedErrors)
      ensures invocations == old(invocations) + LogEffect(level, message, eventId)
    {
      if !IsEnabled(level) {
        return;
      }
      LogMethodIsModuleMethod();
      var logEvent := BuildLogEventIdentifier(level, LogMethod);
      invocations := invocations + [Invocation(logEvent.value, [ConfigArg(config.Snapshot()), Text(message), Text(eventId)])];
    }

    method LogTrace(message: string, eventId: string)
      modifies this
      ensures config == old(config) && detailedErrors == old(detailedErrors)
      ensures invocations == old(invocations) + LogEffect(LogLevel.Trace, message, eventId)
    {
      Log(LogLevel.Trace, message, eventId);
    }

    method LogDebug(message: string, eventId: string)
      modifies this
      ensures config == old(config) && detailedErrors == old(detailedErrors)
      ensures invocations == old(invocations) + LogEffect(LogLevel.Debug, message, eventId)
    {
      Log(LogLevel.Debug, message, eventId);
    }

    method LogInformation(message: string, eventId: string)
      modifies this
      ensures config == old(config) && detailedErrors == old(detailedErrors)
      ensures invocations == old(invocations) + LogEffect(LogLevel.Information, message, eventId)
    {
      Log(LogLevel.Information, message, eventId);
    }

    method LogWarning(message: string, eventId: string)
      modifies this
      ensures config == old(config) && detailedErrors == old(detailedErrors)
      ensures invocations == old(invocations) + LogEffect(LogLevel.Warning, message, eventId)
    {
      Log(LogLevel.Warning, message, eventId);
    }

    method LogError(message: string, eventId: string)
      modifies this
      ensures config == old(config) && detailedErrors == old(detailedErrors)
      ensures invocations == old(invocations) + LogEffect(LogLevel.Error, message, eventId)
    {
      Log(LogLevel.Error, message, eventId);
    }

    method LogCritical(message: string, eventId: string)
      modifies this
      ensures config == old(config) && detailedErrors == old(detailedErrors)
      ensures invocations == old(invocations) + LogEffect(LogLevel.Critical, message, eventId)
    {
      Log(LogLevel.Critical, message, eventId);
    }

    /** `LogError(exception, eventId)`: logs the assembled message at Error.
        A null exception fails on reading its `Message`. */
    method LogException(exception: Nullable<Exception>, eventId: string) returns (o: Outcome<DotNetError>)
      modifies this
      ensures config == old(config) && detailedErrors == old(detailedErrors)
      ensures exception.Null? ==> o == Fail(NullReference) && invocations == old(invocations)
      ensures exception.Some? ==> o == Pass
      ensures exception.Some? ==>
                invocations == old(invocations) + LogEffect(LogLevel.Error, ErrorMessage(exception.value, detailedErrors), eventId)
      ensures exception.Some? ==> (|invocations| == |old(invocations)| + 1 <==> IsEnabled(LogLevel.Error))
    {
      if exception.Null? {
        return Fail(NullReference);
      }
      var message := BuildErrorMessage(exception.value, detailedErrors);
      Log(LogLevel.Error, message, eventId);
      o := Pass;
    }

    /** `LogRaw(message, style)`: always calls `JsLogger.logRaw`. */
    method LogRaw(message: string, style: string)
      modifies this
      ensures config == old(config) && detailedErrors == old(detailedErrors)
      ensures invocations == old(invocations) + [Invocation("JsLogger.logRaw", [Text(message), Text(style)])]
    {
      invocations := invocations + [Invocation("JsLogger.logRaw", [Text(message), Text(style)])];
    }

    /** `Test(message)`: always calls `JsLogger.test` with the configuration. */
    method Test(message: string)
      modifies this
      ensures config == old(config) && detailedErrors == old(detailedErrors)
      ensures invocations == old(invocations) + [Invocation("JsLogger.test", [ConfigArg(config.Snapshot()), Text(message)])]
    {
      invocations := invocations + [Invocation("JsLogger.test", [ConfigArg(config.Snapshot()), Text(message)])];
    }

    /** `BeginScope(state)`: pushes the state's text on the shared stack. */
    method BeginScope(state: Nullable<string>)
      requires scopes.Valid()
      modifies scopes
      ensures scopes.Valid()
      ensures scopes.stack == Pushed(old(scopes.stack), state)
    {
      scopes.Push(state);
    }

    /** Disposing the scope `BeginScope` returned: pops the shared stack. */
    method DisposeScope() returns (o: Outcome<DotNetError>)
      requires scopes.Valid()
      modifies scopes
      ensures scopes.Valid()
      ensures old(scopes.stack).Null? ==> o == Fail(NullReference) && scopes.stack == old(scopes.stack)
      ensures old(scopes.stack).Some? ==> o == Pass && scopes.stack == Popped(old(scopes.stack)).value
    {
      o := scopes.Pop();
    }
  }

  /** End to end: what the browser writes for the calls of one host `Log` is
      nothing for a level the host configuration disables, and otherwise the
      browser's formatted message on the level's console channel. */
  lemma HostLogReachesConsole(logger: JSLoggerInterop, level: LogLevel, message: string, eventId: string,
                              timestamp: string)
    ensures var calls := logger.LogEffect(level, message, eventId);
            var written := if |calls| == 0 then [] else BrowserDispatch(calls[0], timestamp);
            written == if logger.IsEnabled(level)
                       then [ConsoleCall(ChannelFor(level).value,
                               [JsLogger.FormatMessageAsWritten(logger.config.template, logger.config.category,
                                                                level, eventId, timestamp, message)])]
                       else []
  {
    if logger.IsEnabled(level) {
      var snapshot := logger.config.Snapshot();
      LoggerConfig.HostAndBrowserGatesAgree(logger.config, level);
      LogInvocationReachesBrowser(snapshot, level, message, eventId, timestamp);
      JsLogger.LogWhenEnabled(snapshot, level, message, eventId, timestamp);
    }
  }

  /** Beginning two scopes and disposing both restores the shared stack. */
  method NestedScopes(logger: JSLoggerInterop, outer: Nullable<string>, inner: Nullable<string>)
    requires logger.scopes.Valid()
    modifies logger.scopes
    ensures logger.scopes.stack == old(logger.scopes.stack)
  {
    logger.BeginScope(outer);
    ghost var afterOuter := logger.scopes.stack;
    logger.BeginScope(inner);
    PopUndoesPush(afterOuter, inner);
    var first := logger.DisposeScope();
    PopUndoesPush(old(logger.scopes.stack), outer);
    var second := logger.DisposeScope();
  }
}
