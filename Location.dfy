/**
  The guards the pages put in front of a provider call. A coordinate that geolocation or a
  search did not deliver is `None` (JavaScript `null` or `undefined`).
*/
module Location {
  import opened Wrappers

  /** Degrees inside the ranges of a latitude and a longitude. */
  predicate InRange(latitude: real, longitude: real) {
    -90.0 <= latitude <= 90.0 && -180.0 <= longitude <= 180.0
  }

  /**
    `!latitude || !longitude` (src/pages/CropSuggestion.jsx:201, src/pages/Irrigation.jsx:34):
    JavaScript treats a missing value and the number 0 alike as false.
  */
  function FalsyCoordinates(latitude: Option<real>, longitude: Option<real>): (rejected: bool)
    ensures latitude == Some(0.0) || longitude == Some(0.0) ==> rejected
    ensures !rejected <==> latitude.Some? && longitude.Some? && latitude.value != 0.0 && longitude.value != 0.0
  {
    latitude.GetOr(0.0) == 0.0 || longitude.GetOr(0.0) == 0.0
  }

  /** The as-written guard refuses a point on the equator, which is a valid coordinate. */
  lemma EquatorRejectedAsWritten()
    ensures InRange(0.0, 32.5)
    ensures FalsyCoordinates(Some(0.0), Some(32.5))
    ensures !CoordinatesMissing(Some(0.0), Some(32.5))
  {
  }

  /**
    `latitude === null || longitude === null` (src/pages/Charts.jsx:36): only a coordinate that
    was not delivered is refused. This is the guard the modelled pages use in place of the falsy one.
  */
  function CoordinatesMissing(latitude: Option<real>, longitude: Option<real>): (rejected: bool)
    ensures !rejected <==> latitude.Some? && longitude.Some?
  {
    latitude.None? || longitude.None?
  }

  /** Every delivered coordinate in range, the equator and the prime meridian included, passes. */
  lemma ValidCoordinatesAccepted(latitude: real, longitude: real)
    requires InRange(latitude, longitude)
    ensures !CoordinatesMissing(Some(latitude), Some(longitude))
    ensures latitude == 0.0 ==> FalsyCoordinates(Some(latitude), Some(longitude))
  {
  }
}
