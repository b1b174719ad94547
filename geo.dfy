/** Value types shared by the map screen (App.js) and the location context
    (contexts/LocationContext.js). */
module Geo {

  /** JavaScript's `null`/`undefined` versus a present value. */
  datatype Option<T> = None | Some(value: T)

  /** A device or map coordinate (`{ latitude, longitude }`). The floating-point
      nature of the numbers plays no part in the model. */
  datatype Point = Point(latitude: real, longitude: real)

  /** An origin or destination marker: `{ latitude, longitude, title }`. */
  datatype LabeledPoint = LabeledPoint(at: Point, title: string)

  /** One element of an autocomplete response. `lat`/`lon` are `None` when the
      provider's field is falsy (absent or the empty string); otherwise they hold
      the number `Number(...)` makes of it. */
  datatype Suggestion = Suggestion(displayName: Option<string>, lat: Option<real>, lon: Option<real>)

  /** What the device and the reverse geocoder do during one location lookup:
      the permission is refused, the permission request or the position read
      throws, the position is read but the reverse-geocoding request or its
      JSON parse throws, or all three succeed (with the response's
      `display_name`, possibly missing). */
  datatype LocationOutcome =
    | Denied
    | PositionFails
    | ReverseFails(position: Point)
    | Located(position: Point, displayName: Option<string>)

  /** The label used whenever no address is known. */
  const CURRENT_LOCATION_LABEL: string := "Ubicación actual"
}
