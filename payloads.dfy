/**
 * The decoded JSON bodies the front end receives from the API, and the
 * JavaScript truthiness rules the front end applies to their fields.
 * A field the API may omit or send as null is an Option; None covers both.
 */
module Payloads {
  import opened Wrappers
  import opened Hours

  /** JavaScript truthiness of an optional string: undefined, null and '' are falsy. */
  predicate Truthy(s: Option<string>) {
    s.Some? && s.value != ""
  }

  /** `s || fallback` for an optional string. */
  function OrElse(s: Option<string>, fallback: string): (r: string)
    ensures Truthy(s) ==> r == s.value
    ensures !Truthy(s) ==> r == fallback
  {
    if Truthy(s) then s.value else fallback
  }

  /** `x || 0` for an optional number: undefined, null and 0 all give 0. */
  function NumberOrZero(x: Option<real>): (r: real)
    ensures x.Some? ==> r == x.value
    ensures x.None? ==> r == 0.0
  {
    x.GetOr(0.0)
  }

  /** One element of a /trips response, as far as the charts read it. */
  datatype TripRow = TripRow(
    tripId: int,
    pickupHour: Option<Hour>,
    tripMiles: Option<real>,
    basePassengerFare: Option<real>)

  /** One element of a /vendors or /insights/top-vendors response. */
  datatype VendorRow = VendorRow(
    vendorId: string,
    vendorName: Option<string>,
    tripCount: Option<real>,
    totalRevenue: Option<real>,
    avgBaseFare: Option<real>)

  /** One element of a /locations response. */
  datatype LocationRow = LocationRow(locationId: int, borough: Option<string>)

  /**
   * A decoded response body: one of the lists above, JSON null, one of the
   * other falsy JSON values (false, 0 or the empty string), or any other
   * JSON document, which is truthy and kept as its text.
   */
  datatype Body =
    | TripList(trips: seq<TripRow>)
    | VendorList(vendors: seq<VendorRow>)
    | LocationList(locations: seq<LocationRow>)
    | Null
    | FalsyScalar
    | Document(json: string)

  /** JavaScript truthiness of a body: null, false, 0 and '' are falsy; arrays and everything else are truthy. */
  predicate BodyTruthy(b: Body) {
    !b.Null? && !b.FalsyScalar?
  }
}
