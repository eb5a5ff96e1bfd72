/**
 * Library functions and framework types the app uses but whose code is not
 * part of this model. Each function is passed in as a function value, so every
 * property proved holds for whatever the library returns.
 */
module Foreign {
  import opened Wrappers

  /** `Geohash.encode(latitude:longitude:length:)`. */
  type GeohashEncoder = (real, real, nat) -> string

  /** Foundation's `Double(String)`: the number a string denotes, if any. */
  type DoubleParser = string -> Option<real>

  /** `Scanner(string:).scanHexInt64(&v)`: the scanned value, or None when the scan fails. */
  type HexScanner = string -> Option<bv64>

  /** MapKit's `CLLocationCoordinate2D`. */
  datatype Coordinate = Coordinate(latitude: real, longitude: real)
}
