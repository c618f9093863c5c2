/** ModuleExtensions.cs: how the host names browser functions
    (`<Namespace>.<method>`) and how nullable enums cross the wire as
    lower-case, hyphenated strings. */
module ModuleExtensions {
  import opened Wrappers
  import opened DotNetText
  import JsText

  /** The browser modules the host talks to. */
  datatype JsModule = Geolocation | JsLogger | Observer

  /** `JsModule.ToString()`. */
  function ModuleName(m: JsModule): string {
    match m
    case Geolocation => "Geolocation"
    case JsLogger => "JsLogger"
    case Observer => "Observer"
  }

  /** `GetNamespace`: the module name with `_` written as `.`; no module name
      holds `_`, so the namespace is the module name itself. */
  function GetNamespace(m: JsModule): (ns: string)
    ensures ns == ModuleName(m)
    ensures '.' !in ns && |ns| > 0
  {
    ReplaceAbsentChar(ModuleName(m), '_', '.');
    ReplaceChar(ModuleName(m), '_', '.')
  }

  /** `ToJsonName`: the first character lower-cased, the rest unchanged; an
      empty name makes `name[0]` throw. */
  function ToJsonName(name: string): (r: Result<string, DotNetError>)
    ensures r.Err? <==> |name| == 0
    ensures r.Err? ==> r.error == IndexOutOfRange
    ensures r.Ok? ==> |r.value| == |name| && r.value[0] == ToLowerChar(name[0]) && r.value[1..] == name[1..]
    ensures r.Ok? ==> !('A' <= r.value[0] <= 'Z')
  {
    if |name| == 0 then Err(IndexOutOfRange)
    else Ok([ToLowerChar(name[0])] + name[1..])
  }

  /** Converting a converted name again changes nothing. */
  lemma ToJsonNameIdempotent(name: string)
    requires |name| > 0
    ensures ToJsonName(ToJsonName(name).value) == ToJsonName(name)
  {
    var once := ToJsonName(name).value;
    assert once == [once[0]] + once[1..];
  }

  /** `GetJsModuleMethod(module, name)`: `<namespace>.<jsonName>`; the name is
      the calling member's name, so it is never empty in practice. */
  function GetJsModuleMethod(m: JsModule, name: string): (r: Result<string, DotNetError>)
    ensures r.Err? <==> |name| == 0
  {
    match ToJsonName(name)
    case Err(e) => Err(e)
    case Ok(jsonName) => Ok(GetNamespace(m) + "." + jsonName)
  }

  /** The module a namespace names, if any. */
  function ModuleOf(ns: string): (m: Nullable<JsModule>)
    ensures m.Some? ==> ModuleName(m.value) == ns
  {
    if ns == "Geolocation" then Some(Geolocation)
    else if ns == "JsLogger" then Some(JsLogger)
    else if ns == "Observer" then Some(Observer)
    else Null
  }

  /** Reading a browser function identifier back: the module before the first
      `.` and the method name after it. */
  function ParseJsModuleMethod(s: string): Nullable<(JsModule, string)> {
    var dot := JsText.IndexOf(s, ".");
    if dot < 0 then Null
    else match ModuleOf(s[..dot])
      case Null => Null
      case Some(m) => Some((m, s[dot + 1..]))
  }

  lemma ModuleOfName(m: JsModule)
    ensures ModuleOf(ModuleName(m)) == Some(m)
  {
  }

  /** The identifier names its module and the converted method name, and both
      can be read back from it. */
  lemma GetJsModuleMethodRoundTrip(m: JsModule, name: string)
    requires |name| > 0
    ensures ParseJsModuleMethod(GetJsModuleMethod(m, name).value) == Some((m, ToJsonName(name).value))
  {
    var ns := GetNamespace(m);
    var s := ns + "." + ToJsonName(name).value;
    assert s[|ns|..|ns| + 1] == ".";
    assert JsText.MatchAt(s, ".", |ns|);
    forall j | 0 <= j < |ns|
      ensures !JsText.MatchAt(s, ".", j)
    {
      assert s[j..j + 1] == [ns[j]];
    }
    JsText.IndexOfIsUnique(s, ".", |ns|);
    assert s[..|ns|] == ns;
    assert s[|ns| + 1..] == ToJsonName(name).value;
    ModuleOfName(m);
  }

  /** The two identifiers the geolocation and logger modules are called with. */
  lemma GetJsModuleMethodExamples()
    ensures GetJsModuleMethod(Geolocation, "WatchPosition") == Ok("Geolocation.watchPosition")
    ensures GetJsModuleMethod(JsLogger, "Log") == Ok("JsLogger.log")
  {
    var watch := "WatchPosition";
    assert ToLowerChar(watch[0]) == 'w';
    assert [ToLowerChar(watch[0])] + watch[1..] == "watchPosition";
    assert ToJsonName(watch) == Ok("watchPosition");
    assert GetNamespace(Geolocation) == "Geolocation";
    assert "Geolocation" + "." + "watchPosition" == "Geolocation.watchPosition";
    var log := "Log";
    assert ToLowerChar(log[0]) == 'l';
    assert [ToLowerChar(log[0])] + log[1..] == "log";
    assert ToJsonName(log) == Ok("log");
    assert GetNamespace(JsLogger) == "JsLogger";
    assert "JsLogger" + "." + "log" == "JsLogger.log";
  }

  /** `EnumToJsonN(value)`: null for null, otherwise the member's name
      lower-cased with `_` written as `-`. `nameOf` gives each member's name. */
  function EnumToJsonN<T>(nameOf: T -> string, value: Nullable<T>): (r: Nullable<string>)
    ensures r.Null? <==> value.Null?
    ensures r.Some? ==> |r.value| == |nameOf(value.value)|
    ensures r.Some? ==> forall i :: 0 <= i < |r.value| ==>
              r.value[i] == if nameOf(value.value)[i] == '_' then '-' else ToLowerChar(nameOf(value.value)[i])
  {
    match value
    case Null => Null
    case Some(v) => Some(ReplaceChar(ToLower(nameOf(v)), '_', '-'))
  }

  /** `members[k]` is the first member whose name equals `text` ignoring case. */
  ghost predicate FirstMatchAt<T>(members: seq<T>, nameOf: T -> string, text: string, k: int) {
    && 0 <= k < |members|
    && EqualsIgnoreCase(nameOf(members[k]), text)
    && forall j :: 0 <= j < k ==> !EqualsIgnoreCase(nameOf(members[j]), text)
  }

  /** The first of `members` whose name equals `text` ignoring case, searching
      in declaration order as `Enum.TryParse` does. */
  function FindMember<T>(members: seq<T>, nameOf: T -> string, text: string): (r: Nullable<T>)
    ensures r.Some? ==> r.value in members && EqualsIgnoreCase(nameOf(r.value), text)
    ensures r.Some? ==> exists k :: FirstMatchAt(members, nameOf, text, k) && members[k] == r.value
    ensures r.Null? <==> forall k :: 0 <= k < |members| ==> !EqualsIgnoreCase(nameOf(members[k]), text)
  {
    if |members| == 0 then Null
    else if EqualsIgnoreCase(nameOf(members[0]), text) then
      assert FirstMatchAt(members, nameOf, text, 0);
      Some(members[0])
    else
      var rest := FindMember(members[1..], nameOf, text);
      assert forall k :: 1 <= k < |members| ==> members[k] == members[1..][k - 1];
      assert forall k :: FirstMatchAt(members[1..], nameOf, text, k) ==> FirstMatchAt(members, nameOf, text, k + 1);
      rest
  }

  /** `JsonToEnumN(value)`: `-` is written back as `_`, and the text is parsed
      as a member name ignoring case (`Enum.TryParse` with `ignoreCase`); null
      and unknown text give null. */
  function JsonToEnumN<T>(members: seq<T>, nameOf: T -> string, value: Nullable<string>): (r: Nullable<T>)
    ensures value.Null? ==> r.Null?
    ensures value.Some? ==>
              (r.Null? <==> forall k :: 0 <= k < |members| ==>
                 !EqualsIgnoreCase(nameOf(members[k]), ReplaceChar(value.value, '-', '_')))
    ensures r.Some? ==> r.value in members && EqualsIgnoreCase(nameOf(r.value), ReplaceChar(value.value, '-', '_'))
  {
    match value
    case Null => Null
    case Some(text) => FindMember(members, nameOf, ReplaceChar(text, '-', '_'))
  }

  /** Member names that differ other than by case, none holding `-` (as C#
      identifiers never do). */
  predicate DistinctNames<T(==)>(members: seq<T>, nameOf: T -> string) {
    && (forall k :: 0 <= k < |members| ==> '-' !in nameOf(members[k]))
    && (forall j, k :: 0 <= j < |members| && 0 <= k < |members| && members[j] != members[k] ==>
          !EqualsIgnoreCase(nameOf(members[j]), nameOf(members[k])))
  }

  /** Writing `_` as `-` and back gives the lower-cased name again. */
  lemma {:induction false} HyphenRoundTrip(name: string)
    requires '-' !in name
    ensures ReplaceChar(ReplaceChar(ToLower(name), '_', '-'), '-', '_') == ToLower(name)
  {
    var lower := ToLower(name);
    var there := ReplaceChar(lower, '_', '-');
    var back := ReplaceChar(there, '-', '_');
    forall i | 0 <= i < |name|
      ensures back[i] == lower[i]
    {
      assert name[i] != '-';
      assert lower[i] != '-';
    }
  }

  /** Decoding an encoded member gives that member back. */
  lemma EnumJsonRoundTrip<T>(members: seq<T>, nameOf: T -> string, v: T)
    requires DistinctNames(members, nameOf) && v in members
    ensures JsonToEnumN(members, nameOf, EnumToJsonN(nameOf, Some(v))) == Some(v)
  {
    var name := nameOf(v);
    var k :| 0 <= k < |members| && members[k] == v;
    HyphenRoundTrip(name);
    var text := ReplaceChar(EnumToJsonN(nameOf, Some(v)).value, '-', '_');
    assert text == ToLower(name);
    ToLowerIdempotent(name);
    assert EqualsIgnoreCase(nameOf(members[k]), text);
    var r := JsonToEnumN(members, nameOf, EnumToJsonN(nameOf, Some(v)));
    var j :| 0 <= j < |members| && members[j] == r.value;
    assert ToLower(nameOf(members[j])) == ToLower(text);
  }
}
