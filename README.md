# JS interop logging and geolocation, in Dafny

A model of the logging and geolocation pieces of the Marqdouj .NET web
JS-interop modules. The model covers two sides.

The host (C#):
- the logger configuration `JSLoggerConfig`, with its band of enabled levels,
  its template and the default template that all configurations share;
- the logger `JSLoggerInterop`, which gates each message on the band and calls
  the browser function `JsLogger.log<Level>`. It also keeps a stack of scopes;
- `ModuleExtensions`, which names browser functions (`<Namespace>.<method>`)
  and converts nullable enums to lower-case, hyphenated wire strings and back;
- `GeolocationEventArgs`, which decodes a watch notification.

The browser (TypeScript):
- `JsLogger`, which fills the message template and writes to the level's
  console channel;
- the module logger `Logger`;
- `Geolocation`, which keeps a registry mapping a caller's key to a
  browser watch id.

Shared state is modelled as objects. The static default template and the
static scope stack are each one object shared by every configuration or
logger. The geolocation registry is an object too, and the browser's
`navigator.geolocation` is an oracle object that issues watch ids. Console
output and host-to-browser calls are values: `ConsoleCall` and `Invocation`.
Exceptions are `Result` or `Outcome` values.

Modules, one per file: `Wrappers`, `DotNetText`, `JsText`, `LogLevels`,
`Console`, `Logger`, `JsLogger`, `LoggerConfig`, `ModuleExtensions`,
`LoggerInterop`, `GeoTypes`, `Geolocation`, `GeolocationEvents`.

## Model

| member | source | states |
|---|---|---|
| DotNetText.ThrowIfNullOrWhiteSpace | src/MainLib/Marqdouj.DotNet.Web.JsInterop.Modules/Logger/JSLoggerConfig.cs:103 | passes exactly for a non-blank string; null gives ArgumentNull and blank gives ArgumentBlank, both naming the parameter |
| DotNetText.ToLower | src/MainLib/Marqdouj.DotNet.Web.JsInterop.Modules/ModuleExtensions.cs:34 | same length, every character lower-cased (ASCII letters only) |
| DotNetText.ReplaceChar | src/MainLib/Marqdouj.DotNet.Web.JsInterop.Modules/ModuleExtensions.cs:34 | same length, every occurrence of one character replaced and every other character kept |
| JsText.IndexOf | src/MainLib/Marqdouj.DotNet.Web.JsInterop.Modules/scripts/modules/JsLogger.ts:17-21 | `indexOf`: -1 when the pattern occurs nowhere, otherwise an occurrence with none before it |
| JsText.SubstitutionOfDollarFree | src/MainLib/Marqdouj.DotNet.Web.JsInterop.Modules/scripts/modules/JsLogger.ts:22-27 | a replacement without `$` is inserted verbatim by `replace` |
| JsText.ReplaceAfterClean | src/MainLib/Marqdouj.DotNet.Web.JsInterop.Modules/scripts/modules/JsLogger.ts:22-27 | `replace` splices the substituted replacement in at the first occurrence when no occurrence can start earlier |
| JsText.ReplaceAbsent | src/MainLib/Marqdouj.DotNet.Web.JsInterop.Modules/scripts/modules/JsLogger.ts:22-27 | `replace` of an absent pattern returns the string unchanged |
| LogLevels.Ord | src/MainLib/Marqdouj.DotNet.Web.JsInterop.Modules/scripts/modules/Logger.ts:1-9 | levels are numbered 0..6 and only None has 6 |
| LogLevels.OrdRoundTrip | src/MainLib/Marqdouj.DotNet.Web.JsInterop.Modules/scripts/modules/Logger.ts:1-9 | the numbering is a bijection onto 0..6 |
| LogLevels.BandIsConvex | src/MainLib/Marqdouj.DotNet.Web.JsInterop.Modules/Logger/JSLoggerConfig.cs:110-113 | a level between two enabled levels is enabled |
| LogLevels.BandIsInterval | src/MainLib/Marqdouj.DotNet.Web.JsInterop.Modules/Logger/JSLoggerConfig.cs:110-113 | the enabled levels are exactly min..max without None |
| Console.ChannelFor | src/MainLib/Marqdouj.DotNet.Web.JsInterop.Modules/scripts/modules/JsLogger.ts:79-106 | each real level has a console channel, None has none, and Critical goes to `console.error` |
| Logger.LogLevelName | src/MainLib/Marqdouj.DotNet.Web.JsInterop.Modules/scripts/modules/Logger.ts:48-67 | every level has a non-empty name free of braces and `$` |
| Logger.LogLevelNameInjective | src/MainLib/Marqdouj.DotNet.Web.JsInterop.Modules/scripts/modules/Logger.ts:48-67 | different levels have different names |
| Logger.Emit | src/MainLib/Marqdouj.DotNet.Web.JsInterop.Modules/scripts/modules/Logger.ts:19-45 | a line exactly for levels at or above the threshold other than None, `[<name>] <message>` on the level's channel, Critical prefixed with `CRITICAL: ` |
| Logger.LowerThresholdKeepsOutput | src/MainLib/Marqdouj.DotNet.Web.JsInterop.Modules/scripts/modules/Logger.ts:20-21 | lowering the threshold never suppresses a line |
| Logger.Logger.constructor | src/MainLib/Marqdouj.DotNet.Web.JsInterop.Modules/scripts/modules/Logger.ts:12 | the threshold starts at Information |
| Logger.Logger.LogMessage | src/MainLib/Marqdouj.DotNet.Web.JsInterop.Modules/scripts/modules/Logger.ts:19-45 | nothing exactly below the threshold or for None |
| Logger.Logger.SetLogLevel | src/MainLib/Marqdouj.DotNet.Web.JsInterop.Modules/scripts/modules/Logger.ts:14-17 | null selects Information; the change is announced at Information, which is written exactly when the new threshold admits it |
| JsLogger.NewConfig | src/MainLib/Marqdouj.DotNet.Web.JsInterop.Modules/scripts/modules/JsLogger.ts:115-142 | throws exactly for min > max, with the numeric levels in the message; an empty template becomes the default |
| JsLogger.CheckMessage | src/MainLib/Marqdouj.DotNet.Web.JsInterop.Modules/scripts/modules/JsLogger.ts:31-43 | an empty message becomes the diagnostic text, any other message is kept; the result is never empty |
| JsLogger.IsEnabled | src/MainLib/Marqdouj.DotNet.Web.JsInterop.Modules/scripts/modules/JsLogger.ts:63-65 | enabled exactly for a real level numerically within `[minLevel, maxLevel]` |
| JsLogger.FormatWith | src/MainLib/Marqdouj.DotNet.Web.JsInterop.Modules/scripts/modules/JsLogger.ts:16-29 | a template holding none of the five placeholders is written out unchanged |
| JsLogger.StrayBraceNeedsLevelPlaceholder | src/MainLib/Marqdouj.DotNet.Web.JsInterop.Modules/scripts/modules/JsLogger.ts:18 | without `{level}` in the template, `formatMessage` as written and corrected give the same line |
| JsLogger.DefaultTemplateIncludesAll | src/MainLib/Marqdouj.DotNet.Web.JsInterop.Modules/scripts/modules/JsLogger.ts:117 | the default template holds all five placeholders |
| JsLogger.DefaultTemplateLayout | src/MainLib/Marqdouj.DotNet.Web.JsInterop.Modules/scripts/modules/JsLogger.ts:16-29 | with the default template the line is category, event, timestamp and level name, each followed by a space, then `: ` and the checked message (level text corrected, see Findings) |
| JsLogger.StrayBraceAfterLevel | src/MainLib/Marqdouj.DotNet.Web.JsInterop.Modules/scripts/modules/JsLogger.ts:18 | as written, a `}` that no value holds follows the level name |
| JsLogger.DollarAmpersandEchoesPlaceholder | src/MainLib/Marqdouj.DotNet.Web.JsInterop.Modules/scripts/modules/JsLogger.ts:21-27 | a message `$&` is expanded by `replace` into the placeholder text `{message}` |
| JsLogger.LogMessage | src/MainLib/Marqdouj.DotNet.Web.JsInterop.Modules/scripts/modules/JsLogger.ts:79-106 | a console call exactly when the level is enabled, carrying the message alone on the level's channel |
| JsLogger.Log | src/MainLib/Marqdouj.DotNet.Web.JsInterop.Modules/scripts/modules/JsLogger.ts:75-78 | a console call exactly when the level is enabled, one line on the level's channel |
| JsLogger.LogWhenEnabled | src/MainLib/Marqdouj.DotNet.Web.JsInterop.Modules/scripts/modules/JsLogger.ts:75-78 | an enabled level writes, on its channel, the message exactly as `formatMessage` formats it, stray `}` after the level name included |
| JsLogger.LogWithDefaultTemplate | src/MainLib/Marqdouj.DotNet.Web.JsInterop.Modules/scripts/modules/JsLogger.ts:75-78 | with the default template, nothing for a disabled level and otherwise category, event, timestamp, the level name followed by `}` and a space, then `: ` and the checked message, on the level's channel |
| JsLogger.LogRaw | src/MainLib/Marqdouj.DotNet.Web.JsInterop.Modules/scripts/modules/JsLogger.ts:66-74 | `console.log` with `%c` before the checked message and the style as second argument |
| JsLogger.EntryPointLevel | src/MainLib/Marqdouj.DotNet.Web.JsInterop.Modules/scripts/modules/JsLogger.ts:45-62 | the six entry points name real levels (`logWarning` logs at Warn) |
| JsLogger.CallEntryPoint | src/MainLib/Marqdouj.DotNet.Web.JsInterop.Modules/scripts/modules/JsLogger.ts:45-62 | an entry point writes exactly when its level is enabled, on that level's channel |
| JsLogger.Test | src/MainLib/Marqdouj.DotNet.Web.JsInterop.Modules/scripts/modules/JsLogger.ts:4-14 | the first line shows the template of the given configuration, or of the test configuration when none is given; the level lines follow (their text is stated by `TestWritesAllLevels`) |
| JsLogger.TestWritesAllLevels | src/MainLib/Marqdouj.DotNet.Web.JsInterop.Modules/scripts/modules/JsLogger.ts:4-14 | with a configuration enabling Trace..Critical, seven lines: the template line, then for each level in order the message as `formatMessage` writes it (stray `}` included) with event `testLogger`, on the level's channel |
| JsLogger.TestWithoutConfigWritesAllLevels | src/MainLib/Marqdouj.DotNet.Web.JsInterop.Modules/scripts/modules/JsLogger.ts:6 | without a configuration all six levels are written |
| JsLogger.TestConfigIsBuilt | src/MainLib/Marqdouj.DotNet.Web.JsInterop.Modules/scripts/modules/JsLogger.ts:6 | the fallback configuration is what `new JsLoggerConfig('test', Trace, Critical)` builds, default template included |
| LoggerConfig.InitialDefaultTemplateNotBlank | src/MainLib/Marqdouj.DotNet.Web.JsInterop.Modules/Logger/JSLoggerConfig.cs:55 | the initial default template is not blank |
| LoggerConfig.TemplateDefault.constructor | src/MainLib/Marqdouj.DotNet.Web.JsInterop.Modules/Logger/JSLoggerConfig.cs:55 | the shared default starts as the browser's default template |
| LoggerConfig.JSLoggerConfig.Init | src/MainLib/Marqdouj.DotNet.Web.JsInterop.Modules/Logger/JSLoggerConfig.cs:56 | a new configuration starts with the current default template and the band Information..Critical |
| LoggerConfig.JSLoggerConfig.Create | src/MainLib/Marqdouj.DotNet.Web.JsInterop.Modules/Logger/JSLoggerConfig.cs:78-83 | throws exactly for min > max with the .NET level names in the message; null category becomes `JSLoggerInterop`, a blank template the current default |
| LoggerConfig.JSLoggerConfig.IsEnabled | src/MainLib/Marqdouj.DotNet.Web.JsInterop.Modules/Logger/JSLoggerConfig.cs:110-113 | an enabled level is never None |
| LoggerConfig.JSLoggerConfig.SetLevel | src/MainLib/Marqdouj.DotNet.Web.JsInterop.Modules/Logger/JSLoggerConfig.cs:121-129 | rejects exactly an inverted band and then changes nothing; otherwise sets both bounds |
| LoggerConfig.JSLoggerConfig.SetTemplate | src/MainLib/Marqdouj.DotNet.Web.JsInterop.Modules/Logger/JSLoggerConfig.cs:103 | rejects null or blank and keeps the old template; otherwise sets it |
| LoggerConfig.JSLoggerConfig.SetDefaultTemplate | src/MainLib/Marqdouj.DotNet.Web.JsInterop.Modules/Logger/JSLoggerConfig.cs:61-69 | rejects null or blank; otherwise changes the shared default |
| LoggerConfig.JSLoggerConfig.Clone | src/MainLib/Marqdouj.DotNet.Web.JsInterop.Modules/Logger/JSLoggerConfig.cs:135-138 | a fresh object with the same fields and the same shared default |
| LoggerConfig.JSLoggerConfig.Snapshot | src/MainLib/Marqdouj.DotNet.Web.JsInterop.Modules/Logger/JSLoggerInterop.cs:316 | the browser receives the same category, template and band |
| LoggerConfig.HostAndBrowserGatesAgree | src/MainLib/Marqdouj.DotNet.Web.JsInterop.Modules/Logger/JSLoggerConfig.cs:110-113 | the host gate and the browser gate agree on every level |
| LoggerConfig.SnapshotIsAcceptedByBrowser | src/MainLib/Marqdouj.DotNet.Web.JsInterop.Modules/scripts/modules/JsLogger.ts:115-119 | a valid host configuration is accepted unchanged by the browser's constructor |
| LoggerConfig.DefaultTemplateIsShared | src/MainLib/Marqdouj.DotNet.Web.JsInterop.Modules/Logger/JSLoggerConfig.cs:55-69 | a new default reaches configurations built later, not ones built earlier |
| ModuleExtensions.GetNamespace | src/MainLib/Marqdouj.DotNet.Web.JsInterop.Modules/ModuleExtensions.cs:14-17 | the namespace is the module name, non-empty and without `.` |
| ModuleExtensions.ToJsonName | src/MainLib/Marqdouj.DotNet.Web.JsInterop.Modules/ModuleExtensions.cs:25-30 | throws exactly for the empty name; otherwise the same length, first character lower-cased, rest kept |
| ModuleExtensions.ToJsonNameIdempotent | src/MainLib/Marqdouj.DotNet.Web.JsInterop.Modules/ModuleExtensions.cs:25-30 | converting twice equals converting once |
| ModuleExtensions.GetJsModuleMethod | src/MainLib/Marqdouj.DotNet.Web.JsInterop.Modules/ModuleExtensions.cs:19-20 | fails exactly for an empty name |
| ModuleExtensions.GetJsModuleMethodRoundTrip | src/MainLib/Marqdouj.DotNet.Web.JsInterop.Modules/ModuleExtensions.cs:19-20 | module and converted name can be read back from the identifier |
| ModuleExtensions.GetJsModuleMethodExamples | src/MainLib/Marqdouj.DotNet.Web.JsInterop.Modules/ModuleExtensions.cs:19-20 | (Geolocation, WatchPosition) gives `Geolocation.watchPosition` and (JsLogger, Log) gives `JsLogger.log` |
| ModuleExtensions.EnumToJsonN | src/MainLib/Marqdouj.DotNet.Web.JsInterop.Modules/ModuleExtensions.cs:32-35 | null for null; otherwise the name lower-cased with `_` written as `-`, character by character |
| ModuleExtensions.FindMember | src/MainLib/Marqdouj.DotNet.Web.JsInterop.Modules/ModuleExtensions.cs:40 | the first member whose name matches ignoring case, null exactly when none does |
| ModuleExtensions.JsonToEnumN | src/MainLib/Marqdouj.DotNet.Web.JsInterop.Modules/ModuleExtensions.cs:37-41 | null for null; otherwise null exactly when no member name matches the text with `-` read as `_`, ignoring case |
| ModuleExtensions.HyphenRoundTrip | src/MainLib/Marqdouj.DotNet.Web.JsInterop.Modules/ModuleExtensions.cs:32-41 | writing `_` as `-` and back restores a lower-cased name without `-` |
| ModuleExtensions.EnumJsonRoundTrip | src/MainLib/Marqdouj.DotNet.Web.JsInterop.Modules/ModuleExtensions.cs:32-41 | decoding an encoded member gives it back when member names are distinct ignoring case |
| LoggerInterop.BuildLogEventIdentifier | src/MainLib/Marqdouj.DotNet.Web.JsInterop.Modules/Logger/JSLoggerInterop.cs:374-389 | fails exactly for None with ArgumentOutOfRange; otherwise starts with the method name |
| LoggerInterop.IdentifierUsesDotNetName | src/MainLib/Marqdouj.DotNet.Web.JsInterop.Modules/Logger/JSLoggerInterop.cs:374-389 | the identifier is the method name followed by the .NET level name |
| LoggerInterop.BuildLogEventIdentifierInjective | src/MainLib/Marqdouj.DotNet.Web.JsInterop.Modules/Logger/JSLoggerInterop.cs:374-389 | different levels give different identifiers |
| LoggerInterop.LogMethodIsModuleMethod | src/MainLib/Marqdouj.DotNet.Web.JsInterop.Modules/Logger/JSLoggerInterop.cs:368-369 | `GetJsInteropMethod()` in `Log` is `JsLogger.log` |
| LoggerInterop.EntryPointOfLevel | src/MainLib/Marqdouj.DotNet.Web.JsInterop.Modules/scripts/modules/JsLogger.ts:45-62 | `log` + .NET name of a level is the browser entry point for that same level |
| LoggerInterop.ParseLogIdentifier | src/MainLib/Marqdouj.DotNet.Web.JsInterop.Modules/ModuleExtensions.cs:19-20 | the identifier of each real level reads back as the logger module and its entry point `log<Level>` |
| LoggerInterop.LogInvocationReachesBrowser | src/MainLib/Marqdouj.DotNet.Web.JsInterop.Modules/Logger/JSLoggerInterop.cs:313-316 | the host's call reaches the browser's `log` with the same configuration, level, message and event |
| LoggerInterop.ScopeStack.Push | src/MainLib/Marqdouj.DotNet.Web.JsInterop.Modules/Logger/JSLoggerInterop.cs:355-356 | the state goes on top, creating the stack when it is null |
| LoggerInterop.ScopeStack.Pop | src/MainLib/Marqdouj.DotNet.Web.JsInterop.Modules/Logger/JSLoggerInterop.cs:360-364 | null stack throws and stays null; otherwise the top is removed and an emptied stack becomes null |
| LoggerInterop.PopUndoesPush | src/MainLib/Marqdouj.DotNet.Web.JsInterop.Modules/Logger/JSLoggerInterop.cs:353-365 | disposing the scope just begun restores the stack, null included |
| LoggerInterop.BuildErrorMessage | src/MainLib/Marqdouj.DotNet.Web.JsInterop.Modules/Logger/JSLoggerInterop.cs:276-285 | the `StringBuilder` steps build exactly `ErrorMessage` |
| LoggerInterop.ErrorMessage | src/MainLib/Marqdouj.DotNet.Web.JsInterop.Modules/Logger/JSLoggerInterop.cs:276-285 | the exception message and a newline unless blank, then its text and a newline when detailed; empty exactly when neither |
| LoggerInterop.JSLoggerInterop.constructor | src/MainLib/Marqdouj.DotNet.Web.JsInterop.Modules/Logger/JSLoggerInterop.cs:164-198 | a default configuration (category `JSLoggerInterop`, Information..Critical) and detailed errors |
| LoggerInterop.JSLoggerInterop.WithConfig | src/MainLib/Marqdouj.DotNet.Web.JsInterop.Modules/Logger/JSLoggerInterop.cs:178-181 | a null configuration throws ArgumentNull; otherwise the logger uses that object |
| LoggerInterop.JSLoggerInterop.ForType | src/MainLib/Marqdouj.DotNet.Web.JsInterop.Modules/Logger/JSLoggerInterop.cs:144-147 | the category is the type's name; the rest is as the plain constructor sets it: shared default template, band Information..Critical, detailed errors, the shared scope stack and no calls yet |
| LoggerInterop.JSLoggerInterop.ForTypeWithConfig | src/MainLib/Marqdouj.DotNet.Web.JsInterop.Modules/Logger/JSLoggerInterop.cs:154-157 | the caller's own configuration object gets the type's name as category |
| LoggerInterop.JSLoggerInterop.SetConfig | src/MainLib/Marqdouj.DotNet.Web.JsInterop.Modules/Logger/JSLoggerInterop.cs:186 | null throws ArgumentNull and keeps the old configuration |
| LoggerInterop.JSLoggerInterop.IsEnabled | src/MainLib/Marqdouj.DotNet.Web.JsInterop.Modules/Logger/JSLoggerInterop.cs:193 | the host's gate admits exactly the levels the browser's `isEnabled` admits for the configuration sent |
| LoggerInterop.JSLoggerInterop.LogEffect | src/MainLib/Marqdouj.DotNet.Web.JsInterop.Modules/Logger/JSLoggerInterop.cs:308-317 | no call for a disabled level; otherwise one call `JsLogger.log<Level>` with the configuration, message and event id |
| LoggerInterop.JSLoggerInterop.Log | src/MainLib/Marqdouj.DotNet.Web.JsInterop.Modules/Logger/JSLoggerInterop.cs:308-317 | appends exactly the calls of `LogEffect` |
| LoggerInterop.JSLoggerInterop.LogTrace | src/MainLib/Marqdouj.DotNet.Web.JsInterop.Modules/Logger/JSLoggerInterop.cs:218-221 | `Log` at Trace |
| LoggerInterop.JSLoggerInterop.LogDebug | src/MainLib/Marqdouj.DotNet.Web.JsInterop.Modules/Logger/JSLoggerInterop.cs:229-232 | `Log` at Debug |
| LoggerInterop.JSLoggerInterop.LogInformation | src/MainLib/Marqdouj.DotNet.Web.JsInterop.Modules/Logger/JSLoggerInterop.cs:240-243 | `Log` at Information |
| LoggerInterop.JSLoggerInterop.LogWarning | src/MainLib/Marqdouj.DotNet.Web.JsInterop.Modules/Logger/JSLoggerInterop.cs:251-254 | `Log` at Warning |
| LoggerInterop.JSLoggerInterop.LogError | src/MainLib/Marqdouj.DotNet.Web.JsInterop.Modules/Logger/JSLoggerInterop.cs:262-265 | `Log` at Error |
| LoggerInterop.JSLoggerInterop.LogCritical | src/MainLib/Marqdouj.DotNet.Web.JsInterop.Modules/Logger/JSLoggerInterop.cs:296-299 | `Log` at Critical |
| LoggerInterop.JSLoggerInterop.LogException | src/MainLib/Marqdouj.DotNet.Web.JsInterop.Modules/Logger/JSLoggerInterop.cs:273-288 | a null exception fails and calls nothing; otherwise exactly the calls of `Log` at Error with `ErrorMessage` of the exception and the event id appended, one call exactly when Error is enabled |
| LoggerInterop.JSLoggerInterop.LogRaw | src/MainLib/Marqdouj.DotNet.Web.JsInterop.Modules/Logger/JSLoggerInterop.cs:206-210 | always one call `JsLogger.logRaw` with message and style |
| LoggerInterop.JSLoggerInterop.Test | src/MainLib/Marqdouj.DotNet.Web.JsInterop.Modules/Logger/JSLoggerInterop.cs:324-328 | always one call `JsLogger.test` with the configuration and message |
| LoggerInterop.JSLoggerInterop.BeginScope | src/MainLib/Marqdouj.DotNet.Web.JsInterop.Modules/Logger/JSLoggerInterop.cs:353-356 | pushes the state on the shared stack |
| LoggerInterop.JSLoggerInterop.DisposeScope | src/MainLib/Marqdouj.DotNet.Web.JsInterop.Modules/Logger/JSLoggerInterop.cs:358-365 | pops the shared stack |
| LoggerInterop.HostLogReachesConsole | src/MainLib/Marqdouj.DotNet.Web.JsInterop.Modules/Logger/JSLoggerInterop.cs:308-317 | end to end: nothing when the host disables the level, otherwise the browser's line as `formatMessage` writes it (stray `}` included) on the level's channel |
| LoggerInterop.NestedScopes | src/MainLib/Marqdouj.DotNet.Web.JsInterop.Modules/Logger/JSLoggerInterop.cs:353-365 | two nested scopes disposed in order restore the stack |
| Geolocation.KeptOptions | src/MainLib/Marqdouj.DotNet.Web.JsInterop.Modules/scripts/modules/Geolocation.ts:94-112 | none for none; otherwise exactly the truthy fields, with their values |
| Geolocation.KeptOptionsIdempotent | src/MainLib/Marqdouj.DotNet.Web.JsInterop.Modules/scripts/modules/Geolocation.ts:94-112 | filtering filtered options changes nothing |
| Geolocation.FalsyFieldsAreDropped | src/MainLib/Marqdouj.DotNet.Web.JsInterop.Modules/scripts/modules/Geolocation.ts:98-106 | `false` and `0` are dropped like missing fields |
| Geolocation.GeolocationApi.WatchPosition | src/MainLib/Marqdouj.DotNet.Web.JsInterop.Modules/scripts/modules/Geolocation.ts:42-59 | the browser issues a fresh positive id and records the registration |
| Geolocation.GeolocationApi.ClearWatch | src/MainLib/Marqdouj.DotNet.Web.JsInterop.Modules/scripts/modules/Geolocation.ts:71 | the browser forgets exactly that id |
| Geolocation.Geolocation.constructor | src/MainLib/Marqdouj.DotNet.Web.JsInterop.Modules/scripts/modules/Geolocation.ts:4-5 | the registry starts empty |
| Geolocation.Geolocation.SetLogLevel | src/MainLib/Marqdouj.DotNet.Web.JsInterop.Modules/scripts/modules/Geolocation.ts:7-9 | forwards to the module logger: null selects Information, and the returned line is the module logger's Information announcement of the new level |
| Geolocation.Geolocation.BuildOptions | src/MainLib/Marqdouj.DotNet.Web.JsInterop.Modules/scripts/modules/Geolocation.ts:94-112 | returns `KeptOptions` of its argument |
| Geolocation.Geolocation.WatchPosition | src/MainLib/Marqdouj.DotNet.Web.JsInterop.Modules/scripts/modules/Geolocation.ts:33-63 | null without geolocation and undefined for a watched key, both changing nothing; otherwise a fresh id mapped to the key, no other key changed, registry and browser kept in step |
| Geolocation.Geolocation.ClearWatch | src/MainLib/Marqdouj.DotNet.Web.JsInterop.Modules/scripts/modules/Geolocation.ts:66-76 | a watched key's watch and only that key are removed; an unknown key changes nothing and is logged at Debug; nothing without geolocation |
| Geolocation.Geolocation.ClearWatches | src/MainLib/Marqdouj.DotNet.Web.JsInterop.Modules/scripts/modules/Geolocation.ts:78-86 | clearing a snapshot of the keys leaves no key and no browser watch |
| Geolocation.Geolocation.OnWatchSuccess | src/MainLib/Marqdouj.DotNet.Web.JsInterop.Modules/scripts/modules/Geolocation.ts:43-49 | a success is forwarded exactly while the key is watched, as a successful WatchSuccess event for that key |
| Geolocation.Geolocation.OnWatchError | src/MainLib/Marqdouj.DotNet.Web.JsInterop.Modules/scripts/modules/Geolocation.ts:50-56 | an error is always forwarded as a failed WatchError event and logged at Error |
| Geolocation.Geolocation.GetLocation | src/MainLib/Marqdouj.DotNet.Web.JsInterop.Modules/scripts/modules/Geolocation.ts:12-30 | exactly one of position and error; code 0 without geolocation; success exactly when the browser answers with a position; every error logged at Error |
| Geolocation.WatchedIffLiveWatch | src/MainLib/Marqdouj.DotNet.Web.JsInterop.Modules/scripts/modules/Geolocation.ts:88-90 | a key is watched exactly when the browser holds a live watch for it |
| Geolocation.ClearedWatchIsSilent | src/MainLib/Marqdouj.DotNet.Web.JsInterop.Modules/scripts/modules/Geolocation.ts:43-56 | after clearing a key the success callback forwards nothing for it; the error callback, if still invoked, forwards (a browser invokes neither after `clearWatch`) |
| GeolocationEvents.ReasonToJsonValues | src/Marqdouj.DotNet.Web.JsInterop.Modules/Marqdouj.DotNet.Web.JsInterop.Modules/Geolocation/GeolocationEventArgs.cs:34 | the getter gives `watchsuccess`, `watcherror` and null for null |
| GeolocationEvents.ReasonsAreDistinct | src/Marqdouj.DotNet.Web.JsInterop.Modules/Marqdouj.DotNet.Web.JsInterop.Modules/Geolocation/GeolocationEventArgs.cs:8-18 | the reason names differ ignoring case and hold no `-` |
| GeolocationEvents.ReasonJsonRoundTrip | src/Marqdouj.DotNet.Web.JsInterop.Modules/Marqdouj.DotNet.Web.JsInterop.Modules/Geolocation/GeolocationEventArgs.cs:34 | writing back the value read leaves the reason unchanged |
| GeolocationEvents.BrowserReasonsDecode | src/Marqdouj.DotNet.Web.JsInterop.Modules/Marqdouj.DotNet.Web.JsInterop.Modules/Geolocation/GeolocationEventArgs.cs:34 | `WatchSuccess` and `WatchError`, as the browser sends them, decode to their members |
| GeolocationEvents.UnknownReasonsDecodeToNull | src/Marqdouj.DotNet.Web.JsInterop.Modules/Marqdouj.DotNet.Web.JsInterop.Modules/Geolocation/GeolocationEventArgs.cs:34 | null, the empty string and `watch-success` decode to null |
| GeolocationEvents.GeolocationEventArgs.TypeJs | src/Marqdouj.DotNet.Web.JsInterop.Modules/Marqdouj.DotNet.Web.JsInterop.Modules/Geolocation/GeolocationEventArgs.cs:34 | null exactly when the reason is null, and read back as the same reason |
| GeolocationEvents.GeolocationEventArgs.SetTypeJs | src/Marqdouj.DotNet.Web.JsInterop.Modules/Marqdouj.DotNet.Web.JsInterop.Modules/Geolocation/GeolocationEventArgs.cs:34 | sets the decoded reason and nothing else |
| GeolocationEvents.GeolocationEventArgs.IsSuccess | src/Marqdouj.DotNet.Web.JsInterop.Modules/Marqdouj.DotNet.Web.JsInterop.Modules/Geolocation/GeolocationEventArgs.cs:52 | success exactly when a result is present and holds a position; an error-only result is not a success |
| GeolocationEvents.Deserialize | src/Marqdouj.DotNet.Web.JsInterop.Modules/Marqdouj.DotNet.Web.JsInterop.Modules/Geolocation/GeolocationEventArgs.cs:32-46 | the host object carries the notification's key and result and the decoded reason |
| GeolocationEvents.WriteBackTypeJs | src/Marqdouj.DotNet.Web.JsInterop.Modules/Marqdouj.DotNet.Web.JsInterop.Modules/Geolocation/GeolocationEventArgs.cs:34 | writing back the getter's value changes no property |
| GeolocationEvents.ReceiveWatchNotifications | src/MainLib/Marqdouj.DotNet.Web.JsInterop.Modules/Geolocation/GeolocationResult.cs:23 | a forwarded success arrives as a successful WatchSuccess event, an error as a failed WatchError event |

## Findings

| source | as written | input that shows it | evidently intended | confidence | as-written member | corrected member |
|---|---|---|---|---|---|---|
| src/MainLib/Marqdouj.DotNet.Web.JsInterop.Modules/scripts/modules/JsLogger.ts:18 | the text for `{level}` is the level name followed by `}` and a space | the default template at level Information gives `… Information} : <message>` | the level name followed by a space, like the other placeholders | high; not executed | JsLogger.StrayBraceAfterLevel | JsLogger.DefaultTemplateLayout |

`JsLogger.FormatMessageAsWritten` keeps the stray brace, and `JsLogger.Log`,
the entry points, `test` and the end-to-end lemma use it, as the browser does.
`JsLogger.FormatMessage` drops the brace; `DefaultTemplateLayout` and
`DollarAmpersandEchoesPlaceholder` state the layout it evidently means.

## Left out

- I/O is not modelled. Asynchronous module loading (`moduleTask`), `DisposeAsync` and `await` are out, so calls are taken to run in program order.
- `DotNetObjectReference` and the `invokeMethodAsync` transport are out. A notification is a returned value.
- The Observer module and the webpack build are not part of this model.
- The console's extra `optionalParams` arguments are dropped; only the message line is modelled. This covers `keys`, `result` and `args` in the Geolocation logs.
- `new Date().toISOString()` is a parameter (`timestamp`).
- JsLogger.Test: stamps all six level lines with one `timestamp`, where each `formatMessage` call reads the clock anew. What the browser answers to `getCurrentPosition` is also a parameter (`answer`).
- The options that `getLocation` and `watchPosition` pass to the browser have no observable effect in the model. Those of `watchPosition` are recorded in the watch registration; those built by `getLocation` are recorded nowhere.
- Positions use `real` coordinates, not IEEE doubles, so NaN and rounding are out. Error codes are unbounded integers.
- Strings are sequences of characters, not UTF-16 code units.
- `Exception.ToString()` is an opaque string. `Environment.NewLine` is `\n`.
- JsLogger.CheckMessage: only string messages are modelled. A null message sent by the host (a null C# `string`) or any other non-string takes the non-string branch of `#checkMessage`, which then throws on `message.length`; that branch and `logRaw`'s are not modelled.
- DotNetText.ToLower: lower-cases ASCII letters only, not culture-sensitive `ToLower`.
- ModuleExtensions.JsonToEnumN: does not model `Enum.TryParse` accepting numbers, comma-separated flags or surrounding white space.
- `underscoreReplacement` and `hyphenReplacement` are fixed at their defaults, the only values used.
- The TypeScript `JsLoggerConfig` has no mutators after construction, so it is the value `LogConfig` built by `NewConfig`.
- `_scopes` is an `AsyncLocal`. It is modelled as one stack shared by all loggers, with no per-flow copy.
- Geolocation.Geolocation.ClearWatches: iterates the key set in no fixed order. `Map` insertion order is not modelled because it does not affect the result.
- `JSLoggerScope` is modelled by `DisposeScope`. Disposing the same scope twice is not tracked.
