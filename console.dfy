/** The browser console, as a value: which method is called and with which arguments. */
module Console {
  import opened Wrappers
  import opened LogLevels

  datatype Channel = Log | Trace | Debug | Info | Warn | Error

  /** One call `console.<channel>(args...)`. */
  datatype ConsoleCall = ConsoleCall(channel: Channel, args: seq<string>)

  /** The console method each level is routed to by the `switch` in both
      `JsLogger.logMessage` and `Logger.logMessage`; None has no channel. */
  function ChannelFor(level: LogLevel): (c: Nullable<Channel>)
    ensures c.Null? <==> level == LogLevel.None
    ensures level == LogLevel.Critical ==> c == Some(Channel.Error)
  {
    match level
    case Trace => Some(Channel.Trace)
    case Debug => Some(Channel.Debug)
    case Information => Some(Channel.Info)
    case Warning => Some(Channel.Warn)
    case Error => Some(Channel.Error)
    case Critical => Some(Channel.Error)
    case None => Null
  }
}
