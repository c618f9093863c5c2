/** JSLoggerConfig.cs: the host-side logger configuration. A category, a
    template and an inclusive `[MinLevel, MaxLevel]` band, plus a default
    template that is static and so shared by every configuration. */
module LoggerConfig {
  import opened Wrappers
  import opened LogLevels
  import opened DotNetText
  import JsLogger

  /** The initial value of the static `defaultTemplate`; the same text as the
      browser's default. */
  const InitialDefaultTemplate := JsLogger.DefaultTemplate

  /** `nameof(JSLoggerInterop)`, the category of a configuration built without one. */
  const DefaultCategory := "JSLoggerInterop"

  /** The message of the `ArgumentException` thrown for `min > max`; the levels
      are written with their .NET names. */
  function LevelOrderMessage(min: LogLevel, max: LogLevel): string {
    "Minimum log level " + DotNetName(min) + " cannot be greater than maximum log level " + DotNetName(max) + "."
  }

  lemma InitialDefaultTemplateNotBlank()
    ensures !IsNullOrWhiteSpace(Some(InitialDefaultTemplate))
  {
    assert InitialDefaultTemplate[0] == '{';
  }

  /** The static field `defaultTemplate`: one object shared by all configurations. */
  class TemplateDefault {
    var value: string

    predicate Valid()
      reads this
    {
      !IsNullOrWhiteSpace(Some(value))
    }

    constructor ()
      ensures Valid() && value == InitialDefaultTemplate
    {
      value := InitialDefaultTemplate;
      InitialDefaultTemplateNotBlank();
    }
  }

  class JSLoggerConfig {
    /** Where the static default template lives. */
    const defaults: TemplateDefault
    var category: string
    var template: string
    var minLevel: LogLevel
    var maxLevel: LogLevel

    /** The band is never inverted and the template is never blank. */
    predicate Valid()
      reads this, defaults
    {
      AtMost(minLevel, maxLevel) && !IsNullOrWhiteSpace(Some(template)) && defaults.Valid()
    }

    /** The field initialisers and the category assignment that open the
        constructor: the template is the current default, the band is
        Information..Critical. */
    constructor Init(defaults: TemplateDefault, category: string)
      requires defaults.Valid()
      ensures Valid()
      ensures this.defaults == defaults && this.category == category
      ensures template == defaults.value && minLevel == Information && maxLevel == Critical
    {
      this.defaults := defaults;
      this.category := category;
      template := defaults.value;
      minLevel := Information;
      maxLevel := Critical;
    }

    /** `new JSLoggerConfig(category, min, max, template)`. A null category
        becomes `JSLoggerInterop`, a null or white-space template becomes the
        current default template, and `min > max` makes the constructor throw. */
    static method Create(defaults: TemplateDefault, category: Nullable<string>, min: LogLevel, max: LogLevel,
                         template: Nullable<string>) returns (r: Result<JSLoggerConfig, DotNetError>)
      requires defaults.Valid()
      ensures r.Err? <==> !AtMost(min, max)
      ensures r.Err? ==> r.error == Argument(LevelOrderMessage(min, max))
      ensures r.Ok? ==> fresh(r.value) && r.value.Valid() && r.value.defaults == defaults
      ensures r.Ok? ==> r.value.category == if category.Null? then DefaultCategory else category.value
      ensures r.Ok? ==> r.value.template == if IsNullOrWhiteSpace(template) then defaults.value else template.value
      ensures r.Ok? ==> r.value.minLevel == min && r.value.maxLevel == max
    {
      var config := new JSLoggerConfig.Init(defaults, if category.Null? then DefaultCategory else category.value);
      var t := if IsNullOrWhiteSpace(template) then defaults.value else template.value;
      var setTemplate := config.SetTemplate(Some(t));
      assert setTemplate.Pass?;
      var setLevel := config.SetLevel(min, max);
      if setLevel.Fail? {
        r := Err(setLevel.error);
      } else {
        r := Ok(config);
      }
    }

    /** `IsEnabled(logLevel)`: the inclusive band, never None. */
    predicate IsEnabled(level: LogLevel)
      reads this
      ensures IsEnabled(level) ==> level != None
    {
      InBand(minLevel, maxLevel, level)
    }

    /** `SetLevel(min, max)`: rejects an inverted band and then changes nothing. */
    method SetLevel(min: LogLevel, max: LogLevel) returns (o: Outcome<DotNetError>)
      requires Valid()
      modifies this
      ensures Valid()
      ensures o.Fail? <==> !AtMost(min, max)
      ensures o.Fail? ==> o.error == Argument(LevelOrderMessage(min, max))
      ensures o.Fail? ==> minLevel == old(minLevel) && maxLevel == old(maxLevel)
      ensures o.Pass? ==> minLevel == min && maxLevel == max
      ensures category == old(category) && template == old(template)
    {
      if Ord(min) > Ord(max) {
        return Fail(Argument(LevelOrderMessage(min, max)));
      }
      minLevel := min;
      maxLevel := max;
      o := Pass;
    }

    /** The `Template` setter: null or white-space is rejected and the previous
        template is kept. */
    method SetTemplate(value: Nullable<string>) returns (o: Outcome<DotNetError>)
      requires Valid()
      modifies this
      ensures Valid()
      ensures o == ThrowIfNullOrWhiteSpace(value, "Template")
      ensures template == if o.Pass? then value.value else old(template)
      ensures category == old(category) && minLevel == old(minLevel) && maxLevel == old(maxLevel)
    {
      o := ThrowIfNullOrWhiteSpace(value, "Template");
      if o.Pass? {
        template := value.value;
      }
    }

    /** The `DefaultTemplate` setter: writes the shared static field, so every
        configuration sees the new default, while no configuration's own
        `Template` changes. */
    method SetDefaultTemplate(value: Nullable<string>) returns (o: Outcome<DotNetError>)
      requires Valid()
      modifies defaults
      ensures Valid()
      ensures o == ThrowIfNullOrWhiteSpace(value, "defaultTemplate")
      ensures defaults.value == if o.Pass? then value.value else old(defaults.value)
    {
      o := ThrowIfNullOrWhiteSpace(value, "defaultTemplate");
      if o.Pass? {
        defaults.value := value.value;
      }
    }

    /** `Clone()` (`MemberwiseClone`): a new object with the same fields, still
        sharing the static default. */
    method Clone() returns (c: JSLoggerConfig)
      requires Valid()
      ensures fresh(c) && c.Valid()
      ensures c.defaults == defaults && c.category == category && c.template == template
      ensures c.minLevel == minLevel && c.maxLevel == maxLevel
    {
      c := new JSLoggerConfig.Init(defaults, category);
      c.template := template;
      c.minLevel := minLevel;
      c.maxLevel := maxLevel;
    }

    /** The configuration as the browser receives it. */
    function Snapshot(): (s: JsLogger.LogConfig)
      reads this
      ensures s.category == category && s.template == template
      ensures s.minLevel == minLevel && s.maxLevel == maxLevel
    {
      JsLogger.LogConfig(category, minLevel, maxLevel, template)
    }
  }

  /** The host's `IsEnabled` and the browser's `isEnabled`, applied to the
      configuration the host sends, agree on every level. */
  lemma HostAndBrowserGatesAgree(config: JSLoggerConfig, level: LogLevel)
    ensures config.IsEnabled(level) <==> JsLogger.IsEnabled(config.Snapshot(), level)
  {
  }

  /** A valid configuration arrives in the browser as a configuration the
      browser's own constructor accepts, with its template unchanged. */
  lemma SnapshotIsAcceptedByBrowser(config: JSLoggerConfig)
    requires config.Valid()
    ensures JsLogger.NewConfig(config.category, config.minLevel, config.maxLevel, config.template)
         == Ok(config.Snapshot())
  {
    NotBlankIsNonEmpty(config.template);
  }

  /** The default template is shared: once changed through any configuration,
      a configuration built later without a template uses the new default, while
      one built earlier keeps the template it had. */
  method DefaultTemplateIsShared(defaults: TemplateDefault, newDefault: string)
      returns (earlier: JSLoggerConfig, later: JSLoggerConfig)
    requires defaults.Valid() && !IsNullOrWhiteSpace(Some(newDefault))
    modifies defaults
    ensures earlier.template == old(defaults.value)
    ensures later.template == newDefault
  {
    var first := JSLoggerConfig.Create(defaults, Null, Information, Critical, Null);
    earlier := first.value;
    var o := earlier.SetDefaultTemplate(Some(newDefault));
    var second := JSLoggerConfig.Create(defaults, Null, Information, Critical, Null);
    later := second.value;
  }
}
