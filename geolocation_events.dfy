/** GeolocationEventArgs.cs: the host-side view of a watch notification. The
    reason travels as the string property `reason` (`TypeJs`), converted to and
    from the enum `GeolocationEventReason` with the wire conventions of
    `ModuleExtensions`. */
module GeolocationEvents {
  import opened Wrappers
  import opened GeoTypes
  import opened DotNetText
  import ModuleExtensions
  import Geolocation

  datatype GeolocationEventReason = WatchSuccess | WatchError

  /** The member names, as `Enum.ToString` gives them. */
  function ReasonName(r: GeolocationEventReason): string {
    match r
    case WatchSuccess => "WatchSuccess"
    case WatchError => "WatchError"
  }

  /** The members in declaration order, as `Enum.TryParse` searches them. */
  const Reasons: seq<GeolocationEventReason> := [WatchSuccess, WatchError]

  /** The `TypeJs` getter: `Reason.EnumToJsonN()`. */
  function ReasonToJson(reason: Nullable<GeolocationEventReason>): Nullable<string> {
    ModuleExtensions.EnumToJsonN(ReasonName, reason)
  }

  /** The `TypeJs` setter's conversion: `value.JsonToEnumN<GeolocationEventReason>()`. */
  function ReasonFromJson(value: Nullable<string>): Nullable<GeolocationEventReason> {
    ModuleExtensions.JsonToEnumN(Reasons, ReasonName, value)
  }

  /** The getter writes the two reasons as `watchsuccess` and `watcherror`, and
      a missing reason as null. */
  lemma ReasonToJsonValues()
    ensures ReasonToJson(Some(WatchSuccess)) == Some("watchsuccess")
    ensures ReasonToJson(Some(WatchError)) == Some("watcherror")
    ensures ReasonToJson(Null) == Null
  {
    var s := ReasonToJson(Some(WatchSuccess)).value;
    assert s == "watchsuccess" by {
      assert |s| == |"watchsuccess"|;
      forall i | 0 <= i < |s|
        ensures s[i] == "watchsuccess"[i]
      {
      }
    }
    var e := ReasonToJson(Some(WatchError)).value;
    assert e == "watcherror" by {
      assert |e| == |"watcherror"|;
      forall i | 0 <= i < |e|
        ensures e[i] == "watcherror"[i]
      {
      }
    }
  }

  /** The two member names differ other than by case and hold no `-`. */
  lemma ReasonsAreDistinct()
    ensures ModuleExtensions.DistinctNames(Reasons, ReasonName)
  {
    var s := ReasonName(WatchSuccess);
    var e := ReasonName(WatchError);
    assert |ToLower(s)| != |ToLower(e)|;
    assert '-' !in s by {
      forall i | 0 <= i < |s|
        ensures s[i] != '-'
      {
      }
    }
    assert '-' !in e by {
      forall i | 0 <= i < |e|
        ensures e[i] != '-'
      {
      }
    }
  }

  /** Writing back the value read from `TypeJs` gives the same reason. */
  lemma ReasonJsonRoundTrip(reason: Nullable<GeolocationEventReason>)
    ensures ReasonFromJson(ReasonToJson(reason)) == reason
  {
    if reason.Some? {
      ReasonsAreDistinct();
      assert reason.value == Reasons[if reason.value == WatchSuccess then 0 else 1];
      ModuleExtensions.EnumJsonRoundTrip(Reasons, ReasonName, reason.value);
    }
  }

  /** The strings the browser sends decode to their members, because decoding
      ignores case. */
  lemma BrowserReasonsDecode()
    ensures ReasonFromJson(Some(Geolocation.WatchSuccessReason)) == Some(WatchSuccess)
    ensures ReasonFromJson(Some(Geolocation.WatchErrorReason)) == Some(WatchError)
  {
    var s := Geolocation.WatchSuccessReason;
    var e := Geolocation.WatchErrorReason;
    assert s == ReasonName(WatchSuccess) && e == ReasonName(WatchError);
    ReasonsAreDistinct();
    ReplaceAbsentChar(s, '-', '_');
    ReplaceAbsentChar(e, '-', '_');
    assert EqualsIgnoreCase(ReasonName(Reasons[0]), s);
    assert EqualsIgnoreCase(ReasonName(Reasons[1]), e);
    assert !EqualsIgnoreCase(ReasonName(Reasons[0]), e) by {
      assert |ToLower(ReasonName(Reasons[0]))| != |ToLower(e)|;
    }
  }

  /** Null, and text naming no member, decode to null; a hyphen in the text is
      read as `_`, so `watch-success` names no member either. */
  lemma UnknownReasonsDecodeToNull()
    ensures ReasonFromJson(Null) == Null
    ensures ReasonFromJson(Some("")) == Null
    ensures ReasonFromJson(Some("watch-success")) == Null
  {
    var t := ReplaceChar("watch-success", '-', '_');
    forall k | 0 <= k < |Reasons|
      ensures !EqualsIgnoreCase(ReasonName(Reasons[k]), t)
    {
      assert |ToLower(ReasonName(Reasons[k]))| < |ToLower(t)|;
    }
  }

  /** The host object the notification is read into. */
  class GeolocationEventArgs {
    var reason: Nullable<GeolocationEventReason>
    var key: Nullable<string>
    var result: Nullable<LocationResult>

    constructor ()
      ensures reason.Null? && key.Null? && result.Null?
    {
      reason := Null;
      key := Null;
      result := Null;
    }

    /** The `TypeJs` getter: null exactly when there is no reason, and read
        back by the setter as the same reason. */
    function TypeJs(): (t: Nullable<string>)
      reads this
      ensures t.Null? <==> reason.Null?
      ensures ReasonFromJson(t) == reason
    {
      ReasonJsonRoundTrip(reason);
      ReasonToJson(reason)
    }

    /** The `TypeJs` setter. */
    method SetTypeJs(value: Nullable<string>)
      modifies this
      ensures reason == ReasonFromJson(value)
      ensures key == old(key) && result == old(result)
    {
      reason := ReasonFromJson(value);
    }

    /** `IsSuccess`: a result is present and holds a position. */
    predicate IsSuccess()
      reads this
      ensures IsSuccess() <==> result.Some? && result.value.position.Some?
      ensures result.Some? && result.value.position.Null? ==> !IsSuccess()
    {
      result.Some? && GeoTypes.IsSuccess(result.value)
    }
  }

  /** Reading a browser notification into a fresh host object. */
  method Deserialize(args: Geolocation.WatchEventArgs) returns (e: GeolocationEventArgs)
    ensures fresh(e)
    ensures e.key == Some(args.key) && e.result == Some(args.result)
    ensures e.reason == ReasonFromJson(Some(args.reason))
  {
    e := new GeolocationEventArgs();
    e.SetTypeJs(Some(args.reason));
    e.key := Some(args.key);
    e.result := Some(args.result);
  }

  /** Writing back the value read from `TypeJs` leaves `Reason` unchanged. */
  method WriteBackTypeJs(e: GeolocationEventArgs)
    modifies e
    ensures e.reason == old(e.reason) && e.key == old(e.key) && e.result == old(e.result)
  {
    var t := e.TypeJs();
    e.SetTypeJs(t);
  }

  /** A forwarded watch success arrives as a successful event with reason
      `WatchSuccess`, and a watch error as a failed one with reason `WatchError`. */
  method ReceiveWatchNotifications(geo: Geolocation.Geolocation, registration: Geolocation.WatchRegistration,
                                   position: Position, error: PositionError)
      returns (success: Nullable<GeolocationEventArgs>, failure: GeolocationEventArgs)
    ensures success.Some? <==> geo.IsWatched(registration.key)
    ensures success.Some? ==> success.value.reason == Some(WatchSuccess) && success.value.IsSuccess()
    ensures success.Some? ==> success.value.key == Some(registration.key)
    ensures failure.reason == Some(WatchError) && !failure.IsSuccess() && failure.key == Some(registration.key)
  {
    BrowserReasonsDecode();
    match geo.OnWatchSuccess(registration, position) {
      case Null =>
        success := Null;
      case Some(n) =>
        var e := Deserialize(n.args);
        success := Some(e);
    }
    var (n, _) := geo.OnWatchError(registration, error);
    failure := Deserialize(n.args);
  }
}
