/** The location provider of contexts/LocationContext.js: one lookup of the
    device position and its street label, driven by what the permission
    prompt, the position reader and the reverse geocoder do. */
module LocationContext {
  import opened Geo
  import opened JsString

  const PERMISSION_DENIED_ERROR: string := "Permiso de ubicación denegado"
  const LOOKUP_FAILED_ERROR: string := "Error obteniendo ubicación"

  class LocationProvider {
    var currentLocation: Option<Point>
    var currentAddress: string
    var isLoading: bool
    var error: Option<string>

    /** The initial values of the provider's state hooks, before its mount
        effect runs the first lookup. */
    constructor ()
      ensures currentLocation == None && currentAddress == "" && isLoading && error == None
    {
      currentLocation, currentAddress, isLoading, error := None, "", true, None;
    }

    /** The state one lookup leaves behind, given how it went. Loading is over
        on every path. An error is recorded exactly when the permission is
        refused or a step throws. The position is stored as soon as it is read,
        so a failing reverse geocoder still updates it. A usable
        `display_name` gives the text before its first comma; otherwise the
        generic label is used. */
    twostate predicate LoadedFrom(outcome: LocationOutcome)
      reads this
    {
      !isLoading
      && (error.Some? <==> !outcome.Located?)
      && match outcome
         case Denied =>
           error == Some(PERMISSION_DENIED_ERROR) && currentAddress == CURRENT_LOCATION_LABEL
           && currentLocation == old(currentLocation)
         case PositionFails =>
           error == Some(LOOKUP_FAILED_ERROR) && currentAddress == CURRENT_LOCATION_LABEL
           && currentLocation == old(currentLocation)
         case ReverseFails(position) =>
           error == Some(LOOKUP_FAILED_ERROR) && currentAddress == CURRENT_LOCATION_LABEL
           && currentLocation == Some(position)
         case Located(position, displayName) =>
           error == None && currentLocation == Some(position)
           && (Truthy(displayName) ==> IsFirstSegment(currentAddress, displayName.value))
           && (!Truthy(displayName) ==> currentAddress == CURRENT_LOCATION_LABEL)
    }

    /** `getCurrentLocation`: the try block with its early return on a refused
        permission, the catch block for any thrown step, and the finally block
        that turns loading off. */
    method GetCurrentLocation(outcome: LocationOutcome)
      modifies this
      ensures LoadedFrom(outcome)
    {
      isLoading := true;
      error := None;
      match outcome {
        case Denied =>
          error := Some(PERMISSION_DENIED_ERROR);
          currentAddress := CURRENT_LOCATION_LABEL;
        case PositionFails =>
          error := Some(LOOKUP_FAILED_ERROR);
          currentAddress := CURRENT_LOCATION_LABEL;
        case ReverseFails(position) =>
          currentLocation := Some(position);
          error := Some(LOOKUP_FAILED_ERROR);
          currentAddress := CURRENT_LOCATION_LABEL;
        case Located(position, displayName) =>
          currentLocation := Some(position);
          if Truthy(displayName) {
            currentAddress := FirstSegment(displayName.value);
          } else {
            currentAddress := CURRENT_LOCATION_LABEL;
          }
      }
      isLoading := false;
    }

    /** `refreshLocation`: a fresh lookup. */
    method RefreshLocation(outcome: LocationOutcome)
      modifies this
      ensures LoadedFrom(outcome)
    {
      GetCurrentLocation(outcome);
    }
  }

  /** A refused permission followed by a successful refresh: the refresh
      clears the earlier error and shows the street part of the address. */
  method RetryAfterDenial(position: Point)
    returns (error: Option<string>, address: string, location: Option<Point>)
    ensures error == None && address == "Calle 1" && location == Some(position)
  {
    var provider := new LocationProvider();
    provider.GetCurrentLocation(Denied);
    var displayName := "Calle 1" + [','] + " Lima";
    provider.RefreshLocation(Located(position, Some(displayName)));
    FirstSegmentUnique(provider.currentAddress, displayName);
    FirstSegmentOfJoin("Calle 1", " Lima");
    error, address, location := provider.error, provider.currentAddress, provider.currentLocation;
  }
}
