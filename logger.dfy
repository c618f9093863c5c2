/** Logger.ts: the browser-side module logger with a single threshold
    (`level < threshold` is suppressed) used by the geolocation script. */
module Logger {
  import opened Wrappers
  import opened LogLevels
  import opened Console

  /** `LoggerHelper.logLevelName`: the browser-side names (Warn, not Warning). */
  function LogLevelName(level: LogLevel): (name: string)
    ensures |name| > 0 && '{' !in name && '}' !in name && '$' !in name
  {
    match level
    case Critical => "Critical"
    case Debug => "Debug"
    case Error => "Error"
    case Information => "Information"
    case None => "None"
    case Trace => "Trace"
    case Warning => "Warn"
  }

  /** Different levels have different names. */
  lemma LogLevelNameInjective(a: LogLevel, b: LogLevel)
    ensures LogLevelName(a) == LogLevelName(b) ==> a == b
  {
  }

  /** The line `logMessage` writes for a message at `level` when the threshold is
      `threshold`: nothing below the threshold, nothing for None, otherwise
      `[<name>] <message>` on the level's channel, Critical with a `CRITICAL: ` prefix. */
  function Emit(threshold: LogLevel, level: LogLevel, message: string): (out: Nullable<ConsoleCall>)
    ensures out.Some? <==> AtMost(threshold, level) && level != LogLevel.None
    ensures out.Some? ==> out.value.channel == ChannelFor(level).value
    ensures out.Some? ==> |out.value.args| == 1
    ensures out.Some? && level != LogLevel.Critical ==>
              out.value.args[0] == "[" + LogLevelName(level) + "] " + message
    ensures out.Some? && level == LogLevel.Critical ==>
              out.value.args[0] == "CRITICAL: [Critical] " + message
  {
    if Ord(level) < Ord(threshold) then Null
    else
      var logOutput := "[" + LogLevelName(level) + "] " + message;
      match level
      case Trace => Some(ConsoleCall(Channel.Trace, [logOutput]))
      case Debug => Some(ConsoleCall(Channel.Debug, [logOutput]))
      case Information => Some(ConsoleCall(Channel.Info, [logOutput]))
      case Warning => Some(ConsoleCall(Channel.Warn, [logOutput]))
      case Error => Some(ConsoleCall(Channel.Error, [logOutput]))
      case Critical => Some(ConsoleCall(Channel.Error, ["CRITICAL: " + logOutput]))
      case None => Null
  }

  /** Lowering the threshold never suppresses a line that was written before. */
  lemma LowerThresholdKeepsOutput(t1: LogLevel, t2: LogLevel, level: LogLevel, message: string)
    requires AtMost(t1, t2) && Emit(t2, level, message).Some?
    ensures Emit(t1, level, message) == Emit(t2, level, message)
  {
  }

  /** The `Logger` class: a mutable threshold, Information initially. */
  class Logger {
    var logLevel: LogLevel

    constructor ()
      ensures logLevel == Information
    {
      logLevel := Information;
    }

    /** `logMessage(level, message)`. */
    function LogMessage(level: LogLevel, message: string): (out: Nullable<ConsoleCall>)
      reads this
      ensures out.Null? <==> Ord(level) < Ord(logLevel) || level == LogLevel.None
    {
      Emit(logLevel, level, message)
    }

    /** `setLogLevel(level)`: null or undefined selects Information; the change
        is then announced at Information level. */
    method SetLogLevel(level: Nullable<LogLevel>) returns (out: Nullable<ConsoleCall>)
      modifies this
      ensures logLevel == if level.Null? then Information else level.value
      ensures out == Emit(logLevel, Information, "LogLevel has been set to: '" + LogLevelName(logLevel) + "'")
      ensures out.Some? <==> AtMost(logLevel, Information)
    {
      logLevel := if level.Null? then Information else level.value;
      out := LogMessage(Information, "LogLevel has been set to: '" + LogLevelName(logLevel) + "'");
    }
  }
}
