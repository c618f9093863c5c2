/** Geolocation.ts: the browser-side registry of position watches. Each caller
    key is mapped to the id the browser's `watchPosition` issued for it; the
    browser itself (`navigator.geolocation`) is modelled by `GeolocationApi`,
    an id-issuing oracle, and notifications to the host are returned values. */
module Geolocation {
  import opened Wrappers
  import opened LogLevels
  import opened Console
  import opened GeoTypes
  import Logger
  import JsLogger

  /** `PositionOptions` as the host sends them: every field may be missing. */
  datatype PositionOptions = PositionOptions(enableHighAccuracy: Nullable<bool>, maximumAge: Nullable<int>,
                                             timeout: Nullable<int>)

  /** What the browser keeps for one watch: the key and callback name the
      success and error callbacks close over, and the options passed. */
  datatype WatchRegistration = WatchRegistration(key: string, callbackMethod: string, options: Nullable<PositionOptions>)

  /** What `watchPosition` returns: `null` without geolocation, `undefined`
      for a key already watched, otherwise the new watch id. */
  datatype WatchReturn = ReturnsNull | ReturnsUndefined | ReturnsId(id: int)

  /** The script's `GeolocationEventArgs` object. */
  datatype WatchEventArgs = WatchEventArgs(key: string, reason: string, result: LocationResult)

  /** `dotNetRef.invokeMethodAsync(callbackMethod, args)`. */
  datatype Notification = Notification(callbackMethod: string, args: WatchEventArgs)

  const DefaultCallback := "NotifyGeolocationWatch"
  const WatchSuccessReason := "WatchSuccess"
  const WatchErrorReason := "WatchError"
  const UnsupportedMessage := "This device does not support geolocation."

  /** JavaScript truthiness of an optional boolean and an optional number
      (`undefined`, `null`, `false` and `0` are falsy). */
  predicate TruthyBool(b: Nullable<bool>) {
    b == Some(true)
  }

  predicate TruthyNumber(n: Nullable<int>) {
    n.Some? && n.value != 0
  }

  /** The options `#buildOptions` passes on: none for none, otherwise exactly
      the truthy fields, with their values. */
  function KeptOptions(options: Nullable<PositionOptions>): (r: Nullable<PositionOptions>)
    ensures r.Null? <==> options.Null?
    ensures r.Some? ==> (r.value.enableHighAccuracy.Some? <==> TruthyBool(options.value.enableHighAccuracy))
    ensures r.Some? ==> (r.value.maximumAge.Some? <==> TruthyNumber(options.value.maximumAge))
    ensures r.Some? ==> (r.value.timeout.Some? <==> TruthyNumber(options.value.timeout))
    ensures r.Some? && r.value.enableHighAccuracy.Some? ==> r.value.enableHighAccuracy == options.value.enableHighAccuracy
    ensures r.Some? && r.value.maximumAge.Some? ==> r.value.maximumAge == options.value.maximumAge
    ensures r.Some? && r.value.timeout.Some? ==> r.value.timeout == options.value.timeout
  {
    match options
    case Null => Null
    case Some(o) =>
      Some(PositionOptions(if TruthyBool(o.enableHighAccuracy) then o.enableHighAccuracy else Null,
                           if TruthyNumber(o.maximumAge) then o.maximumAge else Null,
                           if TruthyNumber(o.timeout) then o.timeout else Null))
  }

  /** Filtering options that were already filtered changes nothing. */
  lemma KeptOptionsIdempotent(options: Nullable<PositionOptions>)
    ensures KeptOptions(KeptOptions(options)) == KeptOptions(options)
  {
  }

  /** A present `false` or `0` is dropped like a missing field, whatever the
      other fields hold. */
  lemma FalsyFieldsAreDropped(b: Nullable<bool>, age: Nullable<int>, timeout: Nullable<int>)
    ensures KeptOptions(Some(PositionOptions(Some(false), age, timeout)))
         == KeptOptions(Some(PositionOptions(Null, age, timeout)))
    ensures KeptOptions(Some(PositionOptions(b, Some(0), timeout)))
         == KeptOptions(Some(PositionOptions(b, Null, timeout)))
    ensures KeptOptions(Some(PositionOptions(b, age, Some(0))))
         == KeptOptions(Some(PositionOptions(b, age, Null)))
    ensures KeptOptions(Some(PositionOptions(Null, Null, Null))) == Some(PositionOptions(Null, Null, Null))
  {
  }

  /** `navigator.geolocation`: issues a new positive id for each watch and
      forgets an id when it is cleared. */
  class GeolocationApi {
    var watches: map<int, WatchRegistration>
    var nextId: int

    predicate Valid()
      reads this
    {
      nextId > 0 && forall id :: id in watches ==> 0 < id < nextId
    }

    constructor ()
      ensures Valid() && watches == map[]
    {
      watches := map[];
      nextId := 1;
    }

    method WatchPosition(registration: WatchRegistration) returns (id: int)
      requires Valid()
      modifies this
      ensures Valid()
      ensures id > 0 && id !in old(watches)
      ensures watches == old(watches)[id := registration]
    {
      id := nextId;
      watches := watches[id := registration];
      nextId := nextId + 1;
    }

    method ClearWatch(id: int)
      requires Valid()
      modifies this
      ensures Valid()
      ensures watches == old(watches) - {id}
    {
      watches := watches - {id};
    }
  }

  /** The static class `Geolocation`: the key-to-id map `#watchIDs` and the
      module logger. `supported` says whether `navigator.geolocation` exists. */
  class Geolocation {
    const supported: bool
    const api: GeolocationApi
    const logger: Logger.Logger
    var watchIDs: map<string, int>

    /** The registry and the browser agree: every key's id is a live watch
        registered for that key, and every live watch is some key's id. */
    predicate Valid()
      reads this, api
    {
      && api.Valid()
      && (!supported ==> watchIDs == map[])
      && (forall k :: k in watchIDs ==> watchIDs[k] in api.watches && api.watches[watchIDs[k]].key == k)
      && (forall id :: id in api.watches ==> api.watches[id].key in watchIDs && watchIDs[api.watches[id].key] == id)
    }

    constructor (supported: bool, api: GeolocationApi, logger: Logger.Logger)
      requires api.Valid() && api.watches == map[]
      ensures Valid() && watchIDs == map[]
      ensures this.supported == supported && this.api == api && this.logger == logger
    {
      this.supported := supported;
      this.api := api;
      this.logger := logger;
      watchIDs := map[];
    }

    /** `isWatched(key)`: the key has a live browser watch. */
    predicate IsWatched(key: string)
      reads this
    {
      key in watchIDs
    }

    /** `setLogLevel(level)`, forwarded to the module logger, which announces
        the new level at Information. */
    method SetLogLevel(level: Nullable<LogLevel>) returns (logged: Nullable<ConsoleCall>)
      modifies logger
      ensures logger.logLevel == if level.Null? then Information else level.value
      ensures logged == Logger.Emit(logger.logLevel, Information,
                                    "LogLevel has been set to: '" + Logger.LogLevelName(logger.logLevel) + "'")
    {
      logged := logger.SetLogLevel(level);
    }

    /** `#buildOptions(options)`: a fresh options object holding only the
        truthy fields. */
    static method BuildOptions(options: Nullable<PositionOptions>) returns (r: Nullable<PositionOptions>)
      ensures r == KeptOptions(options)
    {
      if options.Null? {
        return Null;
      }
      var result := PositionOptions(Null, Null, Null);
      if TruthyBool(options.value.enableHighAccuracy) {
        result := result.(enableHighAccuracy := options.value.enableHighAccuracy);
      }
      if TruthyNumber(options.value.maximumAge) {
        result := result.(maximumAge := options.value.maximumAge);
      }
      if TruthyNumber(options.value.timeout) {
        result := result.(timeout := options.value.timeout);
      }
      r := Some(result);
    }

    /** `watchPosition(dotNetRef, key, options, callbackMethod)`: at most one
        watch per key; a new key gets a fresh id and no other key changes. */
    method WatchPosition(key: string, options: Nullable<PositionOptions>, callbackMethod: Nullable<string>)
      returns (r: WatchReturn)
      requires Valid()
      modifies this, api
      ensures Valid()
      ensures !supported ==> r == ReturnsNull && watchIDs == old(watchIDs) && api.watches == old(api.watches)
      ensures supported && key in old(watchIDs) ==>
                r == ReturnsUndefined && watchIDs == old(watchIDs) && api.watches == old(api.watches)
      ensures supported && key !in old(watchIDs) ==>
                && r.ReturnsId? && r.id !in old(api.watches)
                && watchIDs == old(watchIDs)[key := r.id]
                && api.watches == old(api.watches)[r.id := WatchRegistration(key,
                     if callbackMethod.Null? then DefaultCallback else callbackMethod.value, KeptOptions(options))]
    {
      if !supported {
        return ReturnsNull;
      }
      if IsWatched(key) {
        return ReturnsUndefined;
      }
      var callback := if callbackMethod.Null? then DefaultCallback else callbackMethod.value;
      var builtOptions := BuildOptions(options);
      var id := api.WatchPosition(WatchRegistration(key, callback, builtOptions));
      watchIDs := watchIDs[key := id];
      r := ReturnsId(id);
    }

    /** `clearWatch(key)`: a watched key's browser watch is cleared and the key
        removed; any other key is reported at Debug level and nothing changes. */
    method ClearWatch(key: string) returns (logged: Nullable<ConsoleCall>)
      requires Valid()
      modifies this, api
      ensures Valid()
      ensures !supported ==> logged == Null && watchIDs == old(watchIDs) && api.watches == old(api.watches)
      ensures supported && key in old(watchIDs) ==>
                && logged == Null
                && watchIDs == old(watchIDs) - {key}
                && api.watches == old(api.watches) - {old(watchIDs)[key]}
      ensures supported && key !in old(watchIDs) ==>
                && logged == logger.LogMessage(LogLevel.Debug, "clearWatch. key was not found: " + key + " ")
                && watchIDs == old(watchIDs) && api.watches == old(api.watches)
    {
      if !supported {
        return Null;
      }
      if key in watchIDs {
        var id := watchIDs[key];
        api.ClearWatch(id);
        watchIDs := watchIDs - {key};
        logged := Null;
      } else {
        logged := logger.LogMessage(LogLevel.Debug, "clearWatch. key was not found: " + key + " ");
      }
    }

    /** `clearWatches()`: clears every key of a snapshot of the keys, so that
        no key and no browser watch is left. */
    method ClearWatches() returns (logged: seq<ConsoleCall>)
      requires Valid()
      modifies this, api
      ensures Valid()
      ensures watchIDs == map[] && api.watches == map[]
      ensures logged == JsLogger.Present(logger.LogMessage(LogLevel.Debug, "Clearing watches:"))
    {
      var keys := watchIDs.Keys;
      logged := JsLogger.Present(logger.LogMessage(LogLevel.Debug, "Clearing watches:"));
      while keys != {}
        invariant Valid()
        invariant keys == watchIDs.Keys
        invariant logged == JsLogger.Present(logger.LogMessage(LogLevel.Debug, "Clearing watches:"))
        decreases |keys|
      {
        var key :| key in keys;
        var cleared := ClearWatch(key);
        logged := logged + JsLogger.Present(cleared);
        keys := keys - {key};
      }
      assert forall id :: id !in api.watches;
    }

    /** The success callback of a watch: forwarded to the host only while the
        key is still watched. */
    function OnWatchSuccess(registration: WatchRegistration, position: Position): (n: Nullable<Notification>)
      reads this
      ensures n.Some? <==> IsWatched(registration.key)
      ensures n.Some? ==> n.value.callbackMethod == registration.callbackMethod && n.value.args.key == registration.key
      ensures n.Some? ==> n.value.args.reason == WatchSuccessReason && IsSuccess(n.value.args.result)
      ensures n.Some? ==> n.value.args.result.position == Some(position)
    {
      if IsWatched(registration.key) then
        Some(Notification(registration.callbackMethod,
                          WatchEventArgs(registration.key, WatchSuccessReason, LocationResult(Some(position), Null))))
      else Null
    }

    /** The error callback of a watch: always forwarded, and logged at Error level. */
    function OnWatchError(registration: WatchRegistration, error: PositionError): (r: (Notification, Nullable<ConsoleCall>))
      reads logger
      ensures r.0.callbackMethod == registration.callbackMethod && r.0.args.key == registration.key
      ensures r.0.args.reason == WatchErrorReason && !IsSuccess(r.0.args.result)
      ensures r.0.args.result.error == Some(error)
      ensures r.1 == logger.LogMessage(LogLevel.Error, "watchPosition error:")
    {
      var args := WatchEventArgs(registration.key, WatchErrorReason, LocationResult(Null, Some(error)));
      (Notification(registration.callbackMethod, args), logger.LogMessage(LogLevel.Error, "watchPosition error:"))
    }

    /** `getLocation(options)`. The browser's answer is `answer`. Exactly one of
        position and error is set; without geolocation the error has code 0.
        Every error is logged at Error level. */
    method GetLocation(options: Nullable<PositionOptions>, answer: Result<Position, PositionError>)
      returns (result: LocationResult, logged: Nullable<ConsoleCall>)
      ensures result.position.Some? != result.error.Some?
      ensures !supported ==> result.error == Some(PositionError(Some(0), Some(UnsupportedMessage)))
      ensures supported ==> (IsSuccess(result) <==> answer.Ok?)
      ensures supported && answer.Ok? ==> result.position == Some(answer.value)
      ensures supported && answer.Err? ==> result.error == Some(answer.error)
      ensures logged == if IsSuccess(result) then Null else logger.LogMessage(LogLevel.Error, "getLocation error:")
    {
      result := LocationResult(Null, Null);
      var outcome: Result<Position, PositionError>;
      if !supported {
        outcome := Err(PositionError(Some(0), Some(UnsupportedMessage)));
      } else {
        var builtOptions := BuildOptions(options);
        outcome := answer;
      }
      logged := Null;
      match outcome {
        case Ok(position) =>
          result := result.(position := Some(position));
        case Err(error) =>
          result := result.(error := Some(PositionError(error.code, error.message)));
          logged := logger.LogMessage(LogLevel.Error, "getLocation error:");
      }
    }
  }

  /** A key is watched exactly when the browser holds a live watch for it. */
  lemma WatchedIffLiveWatch(geo: Geolocation, key: string)
    requires geo.Valid()
    ensures geo.IsWatched(key) <==> exists id :: id in geo.api.watches && geo.api.watches[id].key == key
  {
    if geo.IsWatched(key) {
      var id := geo.watchIDs[key];
      assert id in geo.api.watches && geo.api.watches[id].key == key;
    }
  }

  /** After a watched key is cleared, the success callback forwards nothing for
      it; the error callback, if the browser still invokes it (after
      `clearWatch` a browser calls neither), still forwards. */
  method ClearedWatchIsSilent(geo: Geolocation, registration: WatchRegistration, position: Position, error: PositionError)
    returns (success: Nullable<Notification>, failure: Notification)
    requires geo.Valid() && geo.supported
    modifies geo, geo.api
    ensures geo.Valid() && !geo.IsWatched(registration.key)
    ensures success == Null
    ensures failure.args.key == registration.key && failure.args.reason == WatchErrorReason
  {
    var logged := geo.ClearWatch(registration.key);
    success := geo.OnWatchSuccess(registration, position);
    var (n, _) := geo.OnWatchError(registration, error);
    failure := n;
  }
}
