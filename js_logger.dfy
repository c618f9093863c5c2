/** JsLogger.ts: the browser side of the host logger. It receives a plain
    configuration object, gates on the inclusive `[minLevel, maxLevel]` band,
    fills the message template and writes to the console channel of the level. */
module JsLogger {
  import opened Wrappers
  import opened LogLevels
  import opened Console
  import opened JsText
  import Logger

  /** `JsLoggerConfig`, and equally the plain object the host sends in its place. */
  datatype LogConfig = LogConfig(category: string, minLevel: LogLevel, maxLevel: LogLevel, template: string)

  const CategoryPlaceholder := "{category}"
  const EventPlaceholder := "{event}"
  const TimestampPlaceholder := "{timestamp}"
  const LevelPlaceholder := "{level}"
  const MessagePlaceholder := "{message}"

  /** `{category}{event}{timestamp}{level}: {message}` */
  const DefaultTemplate := CategoryPlaceholder + EventPlaceholder + TimestampPlaceholder
                           + LevelPlaceholder + ": " + MessagePlaceholder
  const EmptyMessageText := "log requested but message is empty"

  function Digit(n: nat): string
    requires n <= 9
  {
    [('0' as int + n) as char]
  }

  /** `new JsLoggerConfig(category, minLevel, maxLevel, template)`: throws when
      `minLevel > maxLevel`; an empty template becomes the default one. */
  function NewConfig(category: string, minLevel: LogLevel, maxLevel: LogLevel, template: string): (r: Result<LogConfig, string>)
    ensures r.Err? <==> !AtMost(minLevel, maxLevel)
    ensures r.Err? ==> r.error == "Minimum log level " + Digit(Ord(minLevel))
                                  + " cannot be greater than maximum log level " + Digit(Ord(maxLevel)) + "."
    ensures r.Ok? ==> r.value.category == category && r.value.minLevel == minLevel && r.value.maxLevel == maxLevel
    ensures r.Ok? ==> r.value.template == if |template| == 0 then DefaultTemplate else template
    ensures r.Ok? ==> |r.value.template| > 0
  {
    var t := if |template| == 0 then DefaultTemplate else template;
    if Ord(minLevel) > Ord(maxLevel) then
      Err("Minimum log level " + Digit(Ord(minLevel)) + " cannot be greater than maximum log level " + Digit(Ord(maxLevel)) + ".")
    else Ok(LogConfig(category, minLevel, maxLevel, t))
  }

  /** `JsLogger.isEnabled(config, level)`: a real level numerically within
      `[minLevel, maxLevel]`. */
  predicate IsEnabled(config: LogConfig, level: LogLevel)
    ensures IsEnabled(config, level) <==> level != None && Ord(config.minLevel) <= Ord(level) <= Ord(config.maxLevel)
  {
    InBand(config.minLevel, config.maxLevel, level)
  }

  /** `#checkMessage` for a string message: an empty message is replaced by a
      diagnostic text, any other message is kept. */
  function CheckMessage(message: string): (r: string)
    ensures |r| > 0
    ensures |message| > 0 ==> r == message
    ensures |message| == 0 ==> r == EmptyMessageText
  {
    if |message| == 0 then EmptyMessageText else message
  }

  /** The text `formatMessage` evidently means to substitute for `{level}`:
      the level's name and a space, like the other placeholders. */
  function LevelText(level: LogLevel): string {
    Logger.LogLevelName(level) + " "
  }

  /** The text the template literal at JsLogger.ts:18 actually produces: the
      name followed by a stray `}` and a space. */
  function LevelTextAsWritten(level: LogLevel): string {
    Logger.LogLevelName(level) + "} "
  }

  /** The body of `formatMessage`, with the text for `{level}` given: each
      placeholder present in the template is replaced once (first
      occurrence), in the order category, level, event, timestamp, message.
      The timestamp (`new Date().toISOString()`) is a parameter. A template
      with none of the five placeholders is written out unchanged. */
  function FormatWith(template: string, category: string, levelText: string, event: string,
                      timestamp: string, message: string): (r: string)
    ensures (&& !Includes(template, CategoryPlaceholder) && !Includes(template, LevelPlaceholder)
             && !Includes(template, EventPlaceholder) && !Includes(template, TimestampPlaceholder)
             && !Includes(template, MessagePlaceholder)) ==> r == template
  {
    var tCategory := if Includes(template, CategoryPlaceholder) then category + " " else "";
    var tLevel := if Includes(template, LevelPlaceholder) then levelText else "";
    var tEvent := if Includes(template, EventPlaceholder) then event + " " else "";
    var tTimestamp := if Includes(template, TimestampPlaceholder) then timestamp + " " else "";
    var tMessage := if Includes(template, MessagePlaceholder) then CheckMessage(message) else "";
    Fill(template, tCategory, tLevel, tEvent, tTimestamp, tMessage)
  }

  /** `JsLogger.formatMessage` as written, stray `}` included. */
  function FormatMessageAsWritten(template: string, category: string, level: LogLevel, event: string,
                                  timestamp: string, message: string): string
  {
    FormatWith(template, category, LevelTextAsWritten(level), event, timestamp, message)
  }

  /** `JsLogger.formatMessage` with the level text corrected: the corrected
      half of the stray-brace finding. `log` uses the version as written. */
  function FormatMessage(template: string, category: string, level: LogLevel, event: string,
                         timestamp: string, message: string): string
  {
    FormatWith(template, category, LevelText(level), event, timestamp, message)
  }

  /** The chain of `replace` calls at the end of `formatMessage`. */
  function Fill(template: string, tCategory: string, tLevel: string, tEvent: string,
                tTimestamp: string, tMessage: string): string
  {
    var afterCategory := Replace(template, CategoryPlaceholder, tCategory);
    var afterLevel := Replace(afterCategory, LevelPlaceholder, tLevel);
    var afterEvent := Replace(afterLevel, EventPlaceholder, tEvent);
    var afterTimestamp := Replace(afterEvent, TimestampPlaceholder, tTimestamp);
    Replace(afterTimestamp, MessagePlaceholder, tMessage)
  }

  /** The stray brace shows only in templates holding `{level}`: without it,
      `formatMessage` as written and corrected agree. */
  lemma StrayBraceNeedsLevelPlaceholder(template: string, category: string, level: LogLevel, event: string,
                                        timestamp: string, message: string)
    requires !Includes(template, LevelPlaceholder)
    ensures FormatMessageAsWritten(template, category, level, event, timestamp, message)
         == FormatMessage(template, category, level, event, timestamp, message)
  {
  }

  lemma IncludesSelf(pat: string)
    ensures Includes(pat, pat)
  {
    assert pat[0..|pat|] == pat;
    assert MatchAt(pat, pat, 0);
  }

  lemma IncludesLeft(x: string, y: string, pat: string)
    requires Includes(x, pat)
    ensures Includes(x + y, pat)
  {
    var i := IndexOf(x, pat);
    assert (x + y)[i..i + |pat|] == x[i..i + |pat|];
    assert MatchAt(x + y, pat, i);
  }

  lemma IncludesRight(x: string, y: string, pat: string)
    requires Includes(y, pat)
    ensures Includes(x + y, pat)
  {
    var i := IndexOf(y, pat);
    assert (x + y)[|x| + i..|x| + i + |pat|] == y[i..i + |pat|];
    assert MatchAt(x + y, pat, |x| + i);
  }

  /** The default template holds all five placeholders. */
  lemma DefaultTemplateIncludesAll()
    ensures Includes(DefaultTemplate, CategoryPlaceholder) && Includes(DefaultTemplate, EventPlaceholder)
    ensures Includes(DefaultTemplate, TimestampPlaceholder) && Includes(DefaultTemplate, LevelPlaceholder)
    ensures Includes(DefaultTemplate, MessagePlaceholder)
  {
    var c, e, t, l, m := CategoryPlaceholder, EventPlaceholder, TimestampPlaceholder,
                         LevelPlaceholder, MessagePlaceholder;
    var t1 := c;
    var t2 := t1 + e;
    var t3 := t2 + t;
    var t4 := t3 + l;
    var t5 := t4 + ": ";
    assert DefaultTemplate == t5 + m;
    IncludesSelf(c);
    IncludesLeft(t1, e, c);
    IncludesLeft(t2, t, c);
    IncludesLeft(t3, l, c);
    IncludesLeft(t4, ": ", c);
    IncludesLeft(t5, m, c);
    IncludesSelf(e);
    IncludesRight(t1, e, e);
    IncludesLeft(t2, t, e);
    IncludesLeft(t3, l, e);
    IncludesLeft(t4, ": ", e);
    IncludesLeft(t5, m, e);
    IncludesSelf(t);
    IncludesRight(t2, t, t);
    IncludesLeft(t3, l, t);
    IncludesLeft(t4, ": ", t);
    IncludesLeft(t5, m, t);
    IncludesSelf(l);
    IncludesRight(t3, l, l);
    IncludesLeft(t4, ": ", l);
    IncludesLeft(t5, m, l);
    IncludesSelf(m);
    IncludesRight(t5, m, m);
  }

  /** Text that holds neither `{` nor `$`: category, event and timestamp values
      for which the layout below holds. */
  predicate Plain(s: string) {
    BraceFree(s) && DollarFree(s)
  }

  lemma PlainWithSpace(x: string)
    requires Plain(x)
    ensures Plain(x + " ")
  {
    assert forall c :: c in x + " " ==> c in x || c == ' ';
  }

  lemma PlainConcat(x: string, y: string)
    requires Plain(x) && Plain(y)
    ensures Plain(x + y)
  {
    assert forall c :: c in x + y ==> c in x || c in y;
  }

  lemma StepCategory(C: string)
    requires Plain(C)
    ensures Replace(DefaultTemplate, CategoryPlaceholder, C)
         == C + EventPlaceholder + TimestampPlaceholder + LevelPlaceholder + ": " + MessagePlaceholder
  {
    var rest := EventPlaceholder + TimestampPlaceholder + LevelPlaceholder + ": " + MessagePlaceholder;
    assert DefaultTemplate == [] + CategoryPlaceholder + rest;
    BraceFreeIsClean([], CategoryPlaceholder);
    ReplaceAfterCleanLiteral([], CategoryPlaceholder, rest, C);
  }

  lemma StepLevel(C: string, L: string)
    requires Plain(C) && Plain(L)
    ensures Replace(C + EventPlaceholder + TimestampPlaceholder + LevelPlaceholder + ": " + MessagePlaceholder,
                    LevelPlaceholder, L)
         == C + EventPlaceholder + TimestampPlaceholder + L + ": " + MessagePlaceholder
  {
    var ev, ts := EventPlaceholder, TimestampPlaceholder;
    assert CleanFor(ev, LevelPlaceholder) by {
      assert ev[1] == 'e';
      assert forall j :: 1 <= j < |ev| ==> ev[j] != '{';
    }
    assert CleanFor(ts, LevelPlaceholder) by {
      assert ts[1] == 't';
      assert forall j :: 1 <= j < |ts| ==> ts[j] != '{';
    }
    BraceFreeIsClean(C, LevelPlaceholder);
    CleanConcat(C, ev, LevelPlaceholder);
    CleanConcat(C + ev, ts, LevelPlaceholder);
    var rest := ": " + MessagePlaceholder;
    assert C + ev + ts + LevelPlaceholder + ": " + MessagePlaceholder == (C + ev + ts) + LevelPlaceholder + rest;
    ReplaceAfterCleanLiteral(C + ev + ts, LevelPlaceholder, rest, L);
  }

  lemma StepEvent(C: string, L: string, E: string)
    requires Plain(C) && Plain(E)
    ensures Replace(C + EventPlaceholder + TimestampPlaceholder + L + ": " + MessagePlaceholder, EventPlaceholder, E)
         == C + E + TimestampPlaceholder + L + ": " + MessagePlaceholder
  {
    BraceFreeIsClean(C, EventPlaceholder);
    var rest := TimestampPlaceholder + L + ": " + MessagePlaceholder;
    assert C + EventPlaceholder + TimestampPlaceholder + L + ": " + MessagePlaceholder == C + EventPlaceholder + rest;
    ReplaceAfterCleanLiteral(C, EventPlaceholder, rest, E);
  }

  lemma StepTimestamp(C: string, L: string, E: string, Ts: string)
    requires Plain(C) && Plain(E) && Plain(Ts)
    ensures Replace(C + E + TimestampPlaceholder + L + ": " + MessagePlaceholder, TimestampPlaceholder, Ts)
         == C + E + Ts + L + ": " + MessagePlaceholder
  {
    PlainConcat(C, E);
    BraceFreeIsClean(C + E, TimestampPlaceholder);
    var rest := L + ": " + MessagePlaceholder;
    assert C + E + TimestampPlaceholder + L + ": " + MessagePlaceholder == (C + E) + TimestampPlaceholder + rest;
    ReplaceAfterCleanLiteral(C + E, TimestampPlaceholder, rest, Ts);
  }

  lemma StepMessage(head: string, M: string)
    requires Plain(head)
    ensures Replace(head + MessagePlaceholder, MessagePlaceholder, M)
         == head + GetSubstitution(MessagePlaceholder, head + MessagePlaceholder, |head|, M)
  {
    BraceFreeIsClean(head, MessagePlaceholder);
    assert head + MessagePlaceholder == head + MessagePlaceholder + [];
    ReplaceAfterClean(head, MessagePlaceholder, [], M);
  }

  /** The line the default template yields before `{message}` is substituted,
      for a given level text. */
  function Head(category: string, levelText: string, event: string, timestamp: string): string {
    category + " " + event + " " + timestamp + " " + levelText + ": "
  }

  /** `Head` with the corrected level text. */
  function DefaultHead(category: string, level: LogLevel, event: string, timestamp: string): string {
    category + " " + event + " " + timestamp + " " + Logger.LogLevelName(level) + " : "
  }

  /** `DefaultHead` is `Head` with the corrected level text: a name followed by
      one space, then `: `. */
  lemma DefaultHeadIsHead(category: string, name: string, event: string, timestamp: string)
    ensures category + " " + event + " " + timestamp + " " + name + " : "
         == Head(category, name + " ", event, timestamp)
  {
    var prefix := category + " " + event + " " + timestamp + " ";
    assert prefix + name + " : " == prefix + (name + " ") + ": ";
  }

  /** The five replacements on the default template, for `{`- and `$`-free
      values of the first four placeholders. */
  lemma FillDefault(C: string, L: string, E: string, Ts: string, M: string)
    requires Plain(C) && Plain(L) && Plain(E) && Plain(Ts)
    ensures
      var head := C + E + Ts + L + ": ";
      Fill(DefaultTemplate, C, L, E, Ts, M)
        == head + GetSubstitution(MessagePlaceholder, head + MessagePlaceholder, |head|, M)
  {
    StepCategory(C);
    StepLevel(C, L);
    StepEvent(C, L, E);
    StepTimestamp(C, L, E, Ts);
    var head := C + E + Ts + L + ": ";
    PlainConcat(C, E);
    PlainConcat(C + E, Ts);
    PlainConcat(C + E + Ts, L);
    PlainConcat(C + E + Ts + L, ": ");
    assert C + E + Ts + L + ": " + MessagePlaceholder == head + MessagePlaceholder;
    StepMessage(head, M);
  }

  /** A template holding all five placeholders is filled with every value. */
  lemma FormatWhenAllIncluded(template: string, category: string, levelText: string, event: string,
                              timestamp: string, message: string)
    requires Includes(template, CategoryPlaceholder) && Includes(template, LevelPlaceholder)
    requires Includes(template, EventPlaceholder) && Includes(template, TimestampPlaceholder)
    requires Includes(template, MessagePlaceholder)
    ensures FormatWith(template, category, levelText, event, timestamp, message)
         == Fill(template, category + " ", levelText, event + " ", timestamp + " ", CheckMessage(message))
  {
  }

  lemma FormatDefaultAsFill(template: string, category: string, levelText: string, event: string,
                            timestamp: string, m: string)
    requires template == DefaultTemplate
    ensures FormatWith(template, category, levelText, event, timestamp, m)
         == Fill(template, category + " ", levelText, event + " ", timestamp + " ", CheckMessage(m))
  {
    DefaultTemplateIncludesAll();
    FormatWhenAllIncluded(template, category, levelText, event, timestamp, m);
  }

  lemma HeadPieces(category: string, levelText: string, event: string, timestamp: string)
    requires Plain(category) && Plain(event) && Plain(timestamp)
    ensures Plain(category + " ") && Plain(event + " ") && Plain(timestamp + " ")
    ensures Head(category, levelText, event, timestamp)
         == (category + " ") + (event + " ") + (timestamp + " ") + levelText + ": "
  {
    PlainWithSpace(category);
    PlainWithSpace(event);
    PlainWithSpace(timestamp);
  }

  /** The default template after its first four replacements; the value
      substituted for `{message}` is the checked message after `$`-pattern expansion. */
  lemma DefaultTemplateUpToMessage(template: string, category: string, levelText: string, event: string,
                                   timestamp: string, m: string)
    requires template == DefaultTemplate
    requires Plain(category) && Plain(levelText) && Plain(event) && Plain(timestamp)
    ensures
      var head := Head(category, levelText, event, timestamp);
      FormatWith(template, category, levelText, event, timestamp, m)
        == head + GetSubstitution(MessagePlaceholder, head + MessagePlaceholder, |head|, CheckMessage(m))
  {
    FormatDefaultAsFill(template, category, levelText, event, timestamp, m);
    HeadPieces(category, levelText, event, timestamp);
    FillDefault(category + " ", levelText, event + " ", timestamp + " ", CheckMessage(m));
  }

  lemma CheckedMessageDollarFree(message: string)
    requires DollarFree(message)
    ensures DollarFree(CheckMessage(message))
  {
  }

  /** With the default template, a `$`-free message and `{`- and `$`-free
      other values, the line is the head followed by the message. */
  lemma DefaultTemplateLayoutWith(template: string, category: string, levelText: string, event: string,
                                  timestamp: string, message: string)
    requires template == DefaultTemplate
    requires Plain(category) && Plain(levelText) && Plain(event) && Plain(timestamp) && DollarFree(message)
    ensures FormatWith(template, category, levelText, event, timestamp, message)
         == Head(category, levelText, event, timestamp) + CheckMessage(message)
  {
    DefaultTemplateUpToMessage(template, category, levelText, event, timestamp, message);
    var head := Head(category, levelText, event, timestamp);
    CheckedMessageDollarFree(message);
    SubstitutionOfDollarFree(MessagePlaceholder, head + MessagePlaceholder, |head|, CheckMessage(message));
  }

  lemma LevelTextsArePlain(level: LogLevel)
    ensures Plain(LevelText(level)) && Plain(LevelTextAsWritten(level))
  {
    var name := Logger.LogLevelName(level);
    assert forall c :: c in name + " " ==> c in name || c == ' ';
    assert forall c :: c in name + "} " ==> c in name || c == '}' || c == ' ';
  }

  /** With the default template and category, event and timestamp free of `{`
      and `$`, the line is the `DefaultHead` followed by the message: category,
      event, timestamp and level name appear in that order, each followed by
      one space, then `: ` and the message. */
  lemma DefaultTemplateLayout(template: string, category: string, level: LogLevel, event: string,
                              timestamp: string, message: string)
    requires template == DefaultTemplate
    requires Plain(category) && Plain(event) && Plain(timestamp) && DollarFree(message)
    ensures FormatMessage(template, category, level, event, timestamp, message)
         == DefaultHead(category, level, event, timestamp) + CheckMessage(message)
  {
    LevelTextsArePlain(level);
    DefaultHeadIsHead(category, Logger.LogLevelName(level), event, timestamp);
    DefaultTemplateLayoutWith(template, category, LevelText(level), event, timestamp, message);
  }

  /** As written, the default layout carries a `}` after the level name that
      none of the values holds. */
  lemma StrayBraceAfterLevel(template: string, category: string, level: LogLevel, event: string,
                             timestamp: string, message: string)
    requires template == DefaultTemplate
    requires Plain(category) && Plain(event) && Plain(timestamp) && DollarFree(message)
    ensures FormatMessageAsWritten(template, category, level, event, timestamp, message)
         == Head(category, Logger.LogLevelName(level) + "} ", event, timestamp) + CheckMessage(message)
    ensures '}' !in Logger.LogLevelName(level)
  {
    LevelTextsArePlain(level);
    DefaultTemplateLayoutWith(template, category, LevelTextAsWritten(level), event, timestamp, message);
  }

  /** `replace` expands `$`-patterns in the message: a message `$&` is written
      as the placeholder text `{message}` itself. */
  lemma DollarAmpersandEchoesPlaceholder(template: string, category: string, level: LogLevel, event: string,
                                         timestamp: string)
    requires template == DefaultTemplate
    requires Plain(category) && Plain(event) && Plain(timestamp)
    ensures FormatMessage(template, category, level, event, timestamp, "$&")
         == DefaultHead(category, level, event, timestamp) + MessagePlaceholder
  {
    LevelTextsArePlain(level);
    DefaultHeadIsHead(category, Logger.LogLevelName(level), event, timestamp);
    DefaultTemplateUpToMessage(template, category, LevelText(level), event, timestamp, "$&");
  }

  /** `logMessage(config, level, message)`: nothing unless the level is enabled;
      otherwise the message alone on the level's console channel (Critical, like
      Error, on `console.error`). */
  function LogMessage(config: LogConfig, level: LogLevel, message: string): (out: Nullable<ConsoleCall>)
    ensures out.Some? <==> IsEnabled(config, level)
    ensures out.Some? ==> out.value == ConsoleCall(ChannelFor(level).value, [message])
  {
    if IsEnabled(config, level) then
      match level
      case Trace => Some(ConsoleCall(Channel.Trace, [message]))
      case Debug => Some(ConsoleCall(Channel.Debug, [message]))
      case Information => Some(ConsoleCall(Channel.Info, [message]))
      case Warning => Some(ConsoleCall(Channel.Warn, [message]))
      case Error => Some(ConsoleCall(Channel.Error, [message]))
      case Critical => Some(ConsoleCall(Channel.Error, [message]))
      case None => Null
    else Null
  }

  /** `log(config, level, message, event)`: the message formatted by
      `formatMessage` as written (level name followed by `}`), through
      `logMessage`. */
  function Log(config: LogConfig, level: LogLevel, message: string, event: string, timestamp: string): (out: Nullable<ConsoleCall>)
    ensures out.Some? <==> IsEnabled(config, level)
    ensures out.Some? ==> out.value.channel == ChannelFor(level).value && |out.value.args| == 1
  {
    LogMessage(config, level, FormatMessageAsWritten(config.template, config.category, level, event, timestamp, message))
  }

  /** What `log` writes with the default template: nothing for a disabled
      level, otherwise the default layout, with the stray `}` after the level
      name, on the level's channel. */
  lemma LogWithDefaultTemplate(config: LogConfig, level: LogLevel, message: string, event: string, timestamp: string)
    requires config.template == DefaultTemplate
    requires Plain(config.category) && Plain(event) && Plain(timestamp) && DollarFree(message)
    ensures Log(config, level, message, event, timestamp)
         == if IsEnabled(config, level)
            then Some(ConsoleCall(ChannelFor(level).value,
                                  [Head(config.category, Logger.LogLevelName(level) + "} ", event, timestamp)
                                   + CheckMessage(message)]))
            else Null
  {
    StrayBraceAfterLevel(config.template, config.category, level, event, timestamp, message);
  }

  /** `logRaw(message, style)`: an empty message is replaced by the diagnostic
      text, and the message is written with a leading `%c` and the style. */
  method LogRaw(message: string, style: string) returns (out: ConsoleCall)
    ensures out.channel == Channel.Log && |out.args| == 2 && out.args[1] == style
    ensures out.args[0] == "%c" + CheckMessage(message)
  {
    var m := message;
    if |m| == 0 {
      m := EmptyMessageText;
    }
    out := ConsoleCall(Channel.Log, ["%c" + m, style]);
  }

  /** The per-level entry points `logTrace` .. `logCritical`; `logWarning`
      logs at `LogLevel.Warn`. Other names are not entry points. */
  function EntryPointLevel(name: string): (l: Nullable<LogLevel>)
    ensures l.Some? ==> l.value != LogLevel.None
  {
    if name == "logTrace" then Some(LogLevel.Trace)
    else if name == "logDebug" then Some(LogLevel.Debug)
    else if name == "logInformation" then Some(LogLevel.Information)
    else if name == "logWarning" then Some(LogLevel.Warning)
    else if name == "logError" then Some(LogLevel.Error)
    else if name == "logCritical" then Some(LogLevel.Critical)
    else Null
  }

  /** A call of an entry point: `log` at the entry point's level. */
  function CallEntryPoint(name: string, config: LogConfig, message: string, event: string, timestamp: string): (out: Nullable<ConsoleCall>)
    requires EntryPointLevel(name).Some?
    ensures out.Some? <==> IsEnabled(config, EntryPointLevel(name).value)
    ensures out.Some? ==> out.value.channel == ChannelFor(EntryPointLevel(name).value).value
  {
    Log(config, EntryPointLevel(name).value, message, event, timestamp)
  }

  /** The configuration `test` uses when it is given none. */
  const TestConfig := LogConfig("test", LogLevel.Trace, LogLevel.Critical, DefaultTemplate)

  /** `TestConfig` is what `test` builds: `new JsLoggerConfig('test', Trace,
      Critical)`, whose omitted template becomes the default one. */
  lemma TestConfigIsBuilt()
    ensures NewConfig("test", LogLevel.Trace, LogLevel.Critical, "") == Ok(TestConfig)
  {
  }

  function Present(c: Nullable<ConsoleCall>): seq<ConsoleCall> {
    if c.Some? then [c.value] else []
  }

  /** `test(config, message)`: the template is written on `console.log`, then the
      message is logged at each of the six levels with event `testLogger`. */
  function Test(config: Nullable<LogConfig>, message: string, timestamp: string): (out: seq<ConsoleCall>)
    ensures |out| >= 1
    ensures var c := if config.Some? then config.value else TestConfig;
            out[0] == ConsoleCall(Channel.Log, ["testLogger: Template [" + c.template + "]"])
  {
    var c := if config.Some? then config.value else TestConfig;
    [ConsoleCall(Channel.Log, ["testLogger: Template [" + c.template + "]"])]
      + LevelLines(LineWriter(c, message, "testLogger", timestamp))
  }

  /** What a call `log<Level>(config, message, event)` writes, for each level. */
  function LineWriter(config: LogConfig, message: string, event: string, timestamp: string): LogLevel -> seq<ConsoleCall> {
    level => Present(Log(config, level, message, event, timestamp))
  }

  /** The six calls `logTrace` .. `logCritical` that `test` makes, in that order. */
  function LevelLines(line: LogLevel -> seq<ConsoleCall>): seq<ConsoleCall> {
    line(LogLevel.Trace) + line(LogLevel.Debug) + line(LogLevel.Information)
      + line(LogLevel.Warning) + line(LogLevel.Error) + line(LogLevel.Critical)
  }

  /** An enabled level writes exactly the message as `formatMessage` formats
      it, on its channel. */
  lemma LogWhenEnabled(config: LogConfig, level: LogLevel, message: string, event: string, timestamp: string)
    requires IsEnabled(config, level)
    ensures Log(config, level, message, event, timestamp)
         == Some(ConsoleCall(ChannelFor(level).value,
                             [FormatMessageAsWritten(config.template, config.category, level, event, timestamp, message)]))
  {
  }

  /** An enabled level contributes one line: the message as `formatMessage`
      formats it, on the level's own channel. */
  lemma OneLineWhenEnabled(config: LogConfig, level: LogLevel, message: string, event: string, timestamp: string)
    requires IsEnabled(config, level)
    ensures var lines := LineWriter(config, message, event, timestamp)(level);
            |lines| == 1
            && lines[0] == ConsoleCall(ChannelFor(level).value,
                                       [FormatMessageAsWritten(config.template, config.category, level, event, timestamp, message)])
  {
    LogWhenEnabled(config, level, message, event, timestamp);
    var out := Log(config, level, message, event, timestamp);
    assert LineWriter(config, message, event, timestamp)(level) == [out.value];
  }

  lemma SixSingletons(p0: seq<ConsoleCall>, p1: seq<ConsoleCall>, p2: seq<ConsoleCall>,
                      p3: seq<ConsoleCall>, p4: seq<ConsoleCall>, p5: seq<ConsoleCall>)
    requires |p0| == 1 && |p1| == 1 && |p2| == 1 && |p3| == 1 && |p4| == 1 && |p5| == 1
    ensures var out := p0 + p1 + p2 + p3 + p4 + p5;
            |out| == 6 && out == [p0[0], p1[0], p2[0], p3[0], p4[0], p5[0]]
  {
  }

  /** When every real level writes one line, with its own text on its own
      channel, the six calls write those six lines in level order. */
  lemma LevelLinesOneEach(line: LogLevel -> seq<ConsoleCall>, text: LogLevel -> seq<string>)
    requires forall l :: l != LogLevel.None ==>
               |line(l)| == 1 && line(l)[0] == ConsoleCall(ChannelFor(l).value, text(l))
    ensures |LevelLines(line)| == 6
    ensures forall n :: 0 <= n < 6 ==>
              LevelLines(line)[n] == ConsoleCall(ChannelFor(FromOrd(n)).value, text(FromOrd(n)))
  {
    SixSingletons(line(LogLevel.Trace), line(LogLevel.Debug), line(LogLevel.Information),
                  line(LogLevel.Warning), line(LogLevel.Error), line(LogLevel.Critical));
  }

  /** With every real level enabled, the six calls write one line each, in
      level order: the formatted message on its level's channel. */
  lemma LevelLinesWhenAllEnabled(config: LogConfig, message: string, event: string, timestamp: string)
    requires config.minLevel == LogLevel.Trace && AtMost(LogLevel.Critical, config.maxLevel)
    ensures var out := LevelLines(LineWriter(config, message, event, timestamp));
            |out| == 6
            && forall n :: 0 <= n < 6 ==>
                 out[n] == ConsoleCall(ChannelFor(FromOrd(n)).value,
                                       [FormatMessageAsWritten(config.template, config.category, FromOrd(n),
                                                               event, timestamp, message)])
  {
    var line := LineWriter(config, message, event, timestamp);
    var text := l => [FormatMessageAsWritten(config.template, config.category, l, event, timestamp, message)];
    forall l | l != LogLevel.None
      ensures |line(l)| == 1 && line(l)[0] == ConsoleCall(ChannelFor(l).value, text(l))
    {
      OneLineWhenEnabled(config, l, message, event, timestamp);
    }
    LevelLinesOneEach(line, text);
  }

  /** With a configuration enabling Trace through Critical, `test` writes the
      template line and then, for each level in order, the message as `log`
      formats it with event `testLogger`, on the level's channel. */
  lemma TestWritesAllLevels(config: LogConfig, message: string, timestamp: string)
    requires config.minLevel == LogLevel.Trace && AtMost(LogLevel.Critical, config.maxLevel)
    ensures var out := Test(Some(config), message, timestamp);
            |out| == 7
            && forall n :: 0 <= n < 6 ==>
                 out[n + 1] == ConsoleCall(ChannelFor(FromOrd(n)).value,
                                           [FormatMessageAsWritten(config.template, config.category, FromOrd(n),
                                                                   "testLogger", timestamp, message)])
  {
    TestLayout(config, message, timestamp);
    LevelLinesWhenAllEnabled(config, message, "testLogger", timestamp);
  }

  /** `test` with a configuration writes its template line, then the six
      calls' lines. */
  lemma TestLayout(config: LogConfig, message: string, timestamp: string)
    ensures Test(Some(config), message, timestamp)
         == [ConsoleCall(Channel.Log, ["testLogger: Template [" + config.template + "]"])]
            + LevelLines(LineWriter(config, message, "testLogger", timestamp))
  {
  }

  /** Without a configuration, `test` uses `TestConfig` and so writes all six levels. */
  lemma TestWithoutConfigWritesAllLevels(message: string, timestamp: string)
    ensures var out := Test(Null, message, timestamp);
            |out| == 7 && forall n :: 0 <= n < 6 ==> out[n + 1].channel == ChannelFor(FromOrd(n)).value
  {
    TestWritesAllLevels(TestConfig, message, timestamp);
    assert Test(Null, message, timestamp) == Test(Some(TestConfig), message, timestamp);
  }
}
