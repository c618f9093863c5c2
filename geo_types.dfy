/** The values a location request produces, shared by the browser script
    (`GetLocationResult`) and the host (`GeolocationResult`,
    `GeolocationPositionError`). */
module GeoTypes {
  import opened Wrappers

  /** A browser `GeolocationPosition`, reduced to the coordinates and the time stamp. */
  datatype Position = Position(latitude: real, longitude: real, accuracy: real, timestamp: int)

  /** `{ code, message }` of a `GeolocationPositionError`. */
  datatype PositionError = PositionError(code: Nullable<int>, message: Nullable<string>)

  /** `GetLocationResult` / `GeolocationResult`: a position or an error. */
  datatype LocationResult = LocationResult(position: Nullable<Position>, error: Nullable<PositionError>)

  /** `GeolocationResult.IsSuccess`: a position is present. */
  predicate IsSuccess(r: LocationResult) {
    r.position.Some?
  }
}
